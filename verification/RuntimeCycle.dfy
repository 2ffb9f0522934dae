/**
 The polling side of one worker runtime: a cycle reaps, claims within capacity,
 admits or poisons what it claimed and reports; the daemon adds the reports up.
 What other threads do meanwhile arrives as events.
 */
module RuntimeCycle {
  import opened Common
  import opened Runtime

  /** One admitted execution as the polling thread sees it. */
  datatype Slot = Slot(
    launched: bool, launchFailed: bool, handlerDone: bool, outcome: Option<Outcome>, timedOut: bool, detected: bool)

  /** What other threads do: handlers end, outcomes are written, a stop or a shutdown is asked for. */
  datatype Event =
    | HandlerEnded(id: string)
    | Recorded(id: string, outcome: Outcome, late: bool, detected: bool)
    | StopRequested
    | Closed

  datatype Launch = Refused | Launched | Stillborn

  /** One claimed item: what its checks and its launch turn out to be, and what happens before it is looked at. */
  datatype Arrival = Arrival(
    valid: bool, id: string, fits: bool, known: bool, launch: Launch, poison: Outcome, meanwhile: seq<Event>)

  datatype Verdict = Malformed | PoisonedAs(outcome: Outcome) | Running(launched: bool)

  /** `rounds` are the turns of the wait, if the cycle waits and for as long as it does. */
  datatype Cycle = Cycle(
    arrivals: Option<seq<Arrival>>, first: seq<Event>, wait: bool, rounds: seq<seq<Event>>, last: seq<Event>)

  datatype Tally = Tally(succeeded: int, failed: int, cancelled: int, leaseLost: int, queueError: int)

  datatype Metrics = Metrics(claimed: int, started: int, poisoned: int, timedOut: int, queueErrors: int, outcomes: Tally)

  datatype RunResult = RunResult(
    claimed: int, started: int, succeeded: int, failed: int, cancelled: int, leaseLost: int,
    poisoned: int, queueErrors: int, timedOut: int, backpressured: bool, active: int)

  const NOTHING: Tally := Tally(0, 0, 0, 0, 0)

  function Bump(t: Tally, outcome: Outcome): Tally {
    match outcome
    case CountSucceeded => t.(succeeded := t.succeeded + 1)
    case CountFailed => t.(failed := t.failed + 1)
    case CountCancelled => t.(cancelled := t.cancelled + 1)
    case CountLeaseLost => t.(leaseLost := t.leaseLost + 1)
    case CountQueueError => t.(queueError := t.queueError + 1)
  }

  function Total(t: Tally): int {
    t.succeeded + t.failed + t.cancelled + t.leaseLost + t.queueError
  }

  lemma BumpAddsOne(t: Tally, o: Outcome)
    ensures Total(NOTHING) == 0
    ensures Total(Bump(t, o)) == Total(t) + 1 && (o.CountQueueError? || Bump(t, o).queueError == t.queueError)
  {
  }

  // ---------------------------------------------------------------- counting executions

  /** The outcomes of the listed executions, one each. */
  function Outcomes(slots: map<string, Slot>, ids: seq<string>): Tally {
    if ids == [] then NOTHING
    else
      var rest, id := Outcomes(slots, ids[..|ids| - 1]), ids[|ids| - 1];
      if id in slots && slots[id].outcome.Some? then Bump(rest, slots[id].outcome.value) else rest
  }

  datatype Feature = Pending | Started | Unlaunched | Late | Troubled | Released

  predicate Shows(s: Slot, f: Feature) {
    match f
    case Pending => s.outcome.None?
    case Started => s.launched
    case Unlaunched => s.launchFailed
    case Late => s.timedOut
    case Troubled => s.outcome == Some(CountQueueError) || s.detected
    // counted with another outcome although its queue call errored
    case Released => s.outcome.Some? && s.outcome != Some(CountQueueError) && s.detected
  }

  /** How many of the listed executions have a property. */
  function Count(slots: map<string, Slot>, ids: seq<string>, f: Feature): nat {
    if ids == [] then 0
    else
      Count(slots, ids[..|ids| - 1], f)
      + (if ids[|ids| - 1] in slots && Shows(slots[ids[|ids| - 1]], f) then 1 else 0)
  }

  /** Each listed execution is pending or falls in exactly one of the five outcomes. */
  lemma {:induction false} OutcomesPartition(slots: map<string, Slot>, ids: seq<string>)
    requires forall id :: id in ids ==> id in slots
    ensures Total(Outcomes(slots, ids)) + Count(slots, ids, Pending) == |ids|
  {
    if ids != [] {
      var n := |ids| - 1;
      assert ids[n] in ids;
      OutcomesPartition(slots, ids[..n]);
    }
  }

  lemma {:induction false} TroublePartition(slots: map<string, Slot>, ids: seq<string>)
    requires forall id :: id in ids ==> id in slots && (slots[id].outcome.None? ==> !slots[id].detected)
    ensures Count(slots, ids, Troubled) == Outcomes(slots, ids).queueError + Count(slots, ids, Released)
  {
    if ids != [] {
      var n := |ids| - 1;
      assert ids[n] in ids;
      TroublePartition(slots, ids[..n]);
    }
  }

  /** An execution that has been started either launched or never will. */
  lemma {:induction false} LaunchPartition(slots: map<string, Slot>, ids: seq<string>)
    requires forall id :: id in ids ==> id in slots && slots[id].launched != slots[id].launchFailed
    ensures Count(slots, ids, Started) + Count(slots, ids, Unlaunched) == |ids|
  {
    if ids != [] {
      LaunchPartition(slots, ids[..|ids| - 1]);
    }
  }

  lemma {:induction false} CountSame(a: map<string, Slot>, b: map<string, Slot>, ids: seq<string>, f: Feature)
    requires forall id :: id in ids ==> id in a && id in b && Shows(a[id], f) == Shows(b[id], f)
    ensures Count(a, ids, f) == Count(b, ids, f)
  {
    if ids != [] {
      CountSame(a, b, ids[..|ids| - 1], f);
    }
  }

  lemma CountPush(slots: map<string, Slot>, ids: seq<string>, id: string, f: Feature)
    ensures Count(slots, ids + [id], f) == Count(slots, ids, f) + if id in slots && Shows(slots[id], f) then 1 else 0
  {
    assert (ids + [id])[..|ids|] == ids;
  }

  /** Different identities, all among the known ones. */
  predicate Listed(ids: seq<string>, known: set<string>) {
    && (forall i, k :: 0 <= i < k < |ids| ==> ids[i] != ids[k])
    && (forall id :: id in ids ==> id in known)
  }

  /** Each execution launched or never will, and only a concluded one may carry a queue error. */
  predicate Sound(slots: map<string, Slot>) {
    forall id :: id in slots ==>
      && slots[id].launched != slots[id].launchFailed
      && (slots[id].outcome.None? ==> !slots[id].detected)
  }

  function Registered(slots: map<string, Slot>, id: string, launched: bool): map<string, Slot> {
    slots[id := Slot(launched, !launched, !launched, None, false, false)]
  }

  lemma Widen(ids: seq<string>, known: set<string>, more: set<string>)
    requires Listed(ids, known) && known <= more
    ensures Listed(ids, more)
  {
  }

  /** The counters account for what has been started and poisoned so far. */
  predicate Balanced(before: Metrics, after: Metrics, slots: map<string, Slot>, started: seq<string>, poisoned: int) {
    && after.claimed == before.claimed
    && after.started == before.started + Count(slots, started, Started)
    && after.poisoned == before.poisoned + poisoned + Count(slots, started, Unlaunched)
  }

  lemma StartedNone(slots: map<string, Slot>, metrics: Metrics)
    ensures Listed([], {}) && Balanced(metrics, metrics, slots, [], 0)
  {
  }

  /** Both sides of the account after one more poisoned claim. */
  lemma PoisonedGrows(before: Metrics, m: Metrics, m': Metrics, slots: map<string, Slot>, started: seq<string>, n: int)
    requires Balanced(before, m, slots, started, n)
    requires m'.claimed == m.claimed && m'.started == m.started && m'.poisoned == m.poisoned + 1
    ensures Balanced(before, m', slots, started, n + 1)
  {
  }

  /** And after one more registered execution. */
  lemma StartedGrows(
      before: Metrics, m: Metrics, m': Metrics, slots: map<string, Slot>, ids: seq<string>, n: int,
      known: set<string>, id: string, launched: bool)
    requires Balanced(before, m, slots, ids, n) && Listed(ids, known) && known <= slots.Keys && id !in known
    requires m'.claimed == m.claimed && m'.started == m.started + if launched then 1 else 0
    requires m'.poisoned == m.poisoned + if launched then 0 else 1
    ensures Listed(ids + [id], known + {id})
    ensures Balanced(before, m', Registered(slots, id, launched), ids + [id], n)
  {
    var slots' := Registered(slots, id, launched);
    CountSame(slots, slots', ids, Started);
    CountSame(slots, slots', ids, Unlaunched);
    CountPush(slots', ids, id, Started);
    CountPush(slots', ids, id, Unlaunched);
  }

  /** Executions only move forward: a launch, a written outcome and a finished handler are final. */
  ghost predicate Onward(before: map<string, Slot>, after: map<string, Slot>) {
    before.Keys <= after.Keys
    && forall id :: id in before ==>
         && after[id].launched == before[id].launched && after[id].launchFailed == before[id].launchFailed
         && (before[id].handlerDone ==> after[id].handlerDone)
         && (before[id].outcome.Some? ==> after[id].outcome == before[id].outcome)
  }

  lemma OnwardTrans(a: map<string, Slot>, b: map<string, Slot>, c: map<string, Slot>)
    requires Onward(a, b) && Onward(b, c)
    ensures Onward(a, c)
  {
  }

  /** What other threads do leaves the account as it is. */
  lemma BalancedStays(
      before: Metrics, m: Metrics, m': Metrics, slots: map<string, Slot>, slots': map<string, Slot>, ids: seq<string>,
      n: int, known: set<string>)
    requires Balanced(before, m, slots, ids, n) && Listed(ids, known) && known <= slots.Keys && Onward(slots, slots')
    requires m'.claimed == m.claimed && m'.started == m.started && m'.poisoned == m.poisoned
    ensures Balanced(before, m', slots', ids, n)
  {
    CountSame(slots, slots', ids, Started);
    CountSame(slots, slots', ids, Unlaunched);
  }

  /** Every one of these executions has its outcome. */
  ghost predicate AllDone(slots: map<string, Slot>, targets: set<string>) {
    forall id :: id in targets ==> id in slots && slots[id].outcome.Some?
  }

  function IdSet(ids: seq<string>): set<string> {
    set id | id in ids
  }

  lemma DoneStays(before: map<string, Slot>, after: map<string, Slot>, targets: set<string>)
    requires AllDone(before, targets) && Onward(before, after)
    ensures AllDone(after, targets)
  {
  }

  lemma {:induction false} NonePending(slots: map<string, Slot>, ids: seq<string>)
    requires forall id :: id in ids ==> id in slots && slots[id].outcome.Some?
    ensures Count(slots, ids, Pending) == 0
  {
    if ids != [] {
      NonePending(slots, ids[..|ids| - 1]);
    }
  }

  /** The identities a cycle takes for known: those it began with, and every validated one since. */
  function Remembered(existing: set<string>, arrivals: seq<Arrival>): set<string> {
    existing + set a | a in arrivals && a.valid :: a.id
  }

  lemma RememberedGrows(existing: set<string>, arrivals: seq<Arrival>, a: Arrival)
    ensures Remembered(existing, arrivals + [a]) == Remembered(existing, arrivals) + if a.valid then {a.id} else {}
  {
    var more := set x | x in arrivals + [a] && x.valid :: x.id;
    var some := set x | x in arrivals && x.valid :: x.id;
    forall id ensures id in more <==> id in some || (a.valid && id == a.id) {
      if id in some {
        var x :| x in arrivals && x.valid && x.id == id;
        assert x in arrivals + [a];
      }
      if a.valid && id == a.id {
        assert a in arrivals + [a];
      }
    }
  }

  /** A claimed item is refused exactly when it is malformed or its identity is known already. */
  ghost predicate Judged(arrivals: seq<Arrival>, existing: set<string>, verdicts: seq<Verdict>) {
    && |verdicts| == |arrivals|
    && forall k :: 0 <= k < |arrivals| ==>
         (verdicts[k].Malformed? <==> !arrivals[k].valid || arrivals[k].id in Remembered(existing, arrivals[..k]))
  }

  /** What is active was there before the admissions or entered with them, and all of it is remembered. */
  ghost predicate Kept(
      before: set<string>, entered: set<string>, admitted: set<string>, active: set<string>, known: set<string>,
      started: seq<string>, i: nat)
  {
    && before !! entered && active <= before + entered && before + entered <= admitted && before + entered <= known
    && (forall id :: id in entered ==> id in started) && |active| <= |before| + i
  }

  lemma KeptGives(
      before: set<string>, entered: set<string>, admitted: set<string>, active: set<string>, known: set<string>,
      started: seq<string>, i: nat)
    requires Kept(before, entered, admitted, active, known, started, i)
    ensures before !! entered && active <= before + entered <= known && active <= admitted && entered <= admitted
    ensures (forall id :: id in entered ==> id in started) && |active| <= |before| + i
  {
  }

  lemma KeptNone(active: set<string>, known: set<string>)
    requires active <= known
    ensures Kept(active, {}, active, active, known, [], 0)
  {
  }

  lemma KeptGrows(
      before: set<string>, entered: set<string>, admitted: set<string>, active: set<string>, known: set<string>,
      started: seq<string>, i: nat, active': set<string>, known': set<string>, id: string, v: Verdict)
    requires Kept(before, entered, admitted, active, known, started, i)
    requires known <= known' && |active'| <= |active| + 1
    requires v.Running? ==> id !in admitted && id in known' && active' <= active + {id}
    requires !v.Running? ==> active' <= active
    ensures v.Running? ==> Kept(before, entered + {id}, admitted + {id}, active', known', started + [id], i + 1)
    ensures !v.Running? ==> Kept(before, entered, admitted, active', known', started, i + 1)
                            && Kept(before, entered, admitted + {id}, active', known', started, i + 1)
  {
  }

  lemma NothingRemembered(existing: set<string>)
    ensures Remembered(existing, []) == existing && Judged([], existing, [])
  {
  }

  lemma JudgedGrows(arrivals: seq<Arrival>, a: Arrival, existing: set<string>, verdicts: seq<Verdict>, v: Verdict)
    requires Judged(arrivals, existing, verdicts)
    requires v.Malformed? <==> !a.valid || a.id in Remembered(existing, arrivals)
    ensures Judged(arrivals + [a], existing, verdicts + [v])
  {
    hide Remembered;
    var more := arrivals + [a];
    forall k | 0 <= k < |more|
      ensures (verdicts + [v])[k].Malformed? <==> !more[k].valid || more[k].id in Remembered(existing, more[..k])
    {
      assert more[..k] == if k < |arrivals| then arrivals[..k] else arrivals;
    }
  }

  /** After a wait that no shutdown cut short, nothing the cycle started is pending. */
  lemma Concluded(
      waited: map<string, Slot>, after: map<string, Slot>, started: seq<string>, existing: set<string>, left: set<string>)
    requires if started != [] then AllDone(waited, IdSet(started)) else AllDone(waited, existing)
    requires Onward(waited, after) && (started == [] ==> left <= existing)
    ensures Count(after, started, Pending) == 0
    ensures started == [] ==> AllDone(after, left)
  {
    if started != [] {
      DoneStays(waited, after, IdSet(started));
      NonePending(after, started);
    } else {
      DoneStays(waited, after, existing);
    }
  }

  /** The account of the started executions: as they were launched, and each pending or concluded once. */
  ghost predicate Settled(before: map<string, Slot>, after: map<string, Slot>, ids: seq<string>) {
    && Count(after, ids, Started) == Count(before, ids, Started)
    && Count(after, ids, Unlaunched) == Count(before, ids, Unlaunched)
    && Total(Outcomes(after, ids)) + Count(after, ids, Pending) == |ids|
    && Count(after, ids, Troubled) == Outcomes(after, ids).queueError + Count(after, ids, Released)
    && Count(after, ids, Started) + Count(after, ids, Unlaunched) == |ids|
  }

  lemma Settles(before: map<string, Slot>, after: map<string, Slot>, ids: seq<string>)
    requires Onward(before, after) && Sound(after) && Listed(ids, before.Keys)
    ensures Settled(before, after, ids)
  {
    CountSame(before, after, ids, Started);
    CountSame(before, after, ids, Unlaunched);
    OutcomesPartition(after, ids);
    TroublePartition(after, ids);
    LaunchPartition(after, ids);
  }

  class WorkerRuntime {
    const maxConcurrency: nat
    const maxErrors: nat
    /** Keys of `_active`. */
    var active: set<string>
    var slots: map<string, Slot>
    var metrics: Metrics
    /** Closing, closed or asked to stop. */
    var stopping: bool
    var closed: bool
    var errorStreak: int

    constructor (maxConcurrency: nat, maxErrors: nat)
      ensures Valid() && active == {} && !stopping && !closed
      ensures this.maxConcurrency == maxConcurrency && this.maxErrors == maxErrors
    {
      this.maxConcurrency, this.maxErrors := maxConcurrency, maxErrors;
      active, slots, metrics := {}, map[], Metrics(0, 0, 0, 0, 0, NOTHING);
      stopping, closed, errorStreak := false, false, 0;
    }

    ghost predicate Valid()
      reads this
    {
      active <= slots.Keys && |active| <= maxConcurrency && Sound(slots) && (closed ==> stopping)
    }

    ghost predicate Forward(before: map<string, Slot>)
      reads this
    {
      Onward(before, slots)
    }

    /** Write an outcome once; a second finalizer changes nothing. */
    method Record(id: string, outcome: Outcome, late: bool, detected: bool)
      requires Valid() && id in slots
      modifies this`slots, this`metrics
      ensures Valid() && Forward(old(slots)) && slots.Keys == old(slots).Keys
      ensures slots[id].outcome.Some?
      ensures old(slots[id]).outcome.Some? ==> metrics == old(metrics) && slots == old(slots)
      ensures old(slots[id]).outcome.None? ==>
                && slots[id].outcome == Some(outcome) && metrics.outcomes == Bump(old(metrics.outcomes), outcome)
      ensures metrics.claimed == old(metrics.claimed) && metrics.started == old(metrics.started)
              && metrics.poisoned == old(metrics.poisoned)
    {
      var slot := slots[id];
      if slot.outcome.Some? {
        return;
      }
      var troubled := outcome.CountQueueError? || detected;
      metrics := metrics.(
        outcomes := Bump(metrics.outcomes, outcome),
        timedOut := metrics.timedOut + if late then 1 else 0,
        queueErrors := metrics.queueErrors + if troubled then 1 else 0);
      slots := slots[id := slot.(outcome := Some(outcome), timedOut := late, detected := detected)];
    }

    /** Drop an execution only when both its handler and its outcome are done. */
    method Reap()
      requires Valid()
      modifies this`active
      ensures Valid()
      ensures active == set id | id in old(active) && !(slots[id].handlerDone && slots[id].outcome.Some?)
    {
      var kept := set id | id in active && !(slots[id].handlerDone && slots[id].outcome.Some?);
      SubsetSize(kept, active);
      active := kept;
    }

    /** Apply what other threads did, then reap. */
    method Monitor(events: seq<Event>)
      requires Valid()
      modifies this`active, this`slots, this`metrics, this`stopping, this`closed
      ensures Valid() && Forward(old(slots)) && active <= old(active) && slots.Keys == old(slots).Keys
      ensures forall id :: id in old(active) && id !in active ==> slots[id].handlerDone && slots[id].outcome.Some?
      ensures metrics.claimed == old(metrics.claimed) && metrics.started == old(metrics.started)
              && metrics.poisoned == old(metrics.poisoned)
      ensures (stopping <==> old(stopping) || StopRequested in events || Event.Closed in events)
              && (closed <==> old(closed) || Event.Closed in events)
    {
      for i := 0 to |events|
        invariant Valid() && Forward(old(slots)) && active == old(active) && slots.Keys == old(slots).Keys
        invariant metrics.claimed == old(metrics.claimed) && metrics.started == old(metrics.started)
                  && metrics.poisoned == old(metrics.poisoned)
        invariant (stopping <==> old(stopping) || StopRequested in events[..i] || Event.Closed in events[..i])
                  && (closed <==> old(closed) || Event.Closed in events[..i])
      {
        var e := events[i];
        assert events[..i + 1] == events[..i] + [e];
        Apply(e);
      }
      assert events[..|events|] == events;
      Reap();
    }

    /** One thing another thread does. */
    method Apply(e: Event)
      requires Valid()
      modifies this`slots, this`metrics, this`stopping, this`closed
      ensures Valid() && Forward(old(slots)) && slots.Keys == old(slots).Keys
      ensures metrics.claimed == old(metrics.claimed) && metrics.started == old(metrics.started)
              && metrics.poisoned == old(metrics.poisoned)
      ensures (stopping <==> old(stopping) || e.StopRequested? || e.Closed?) && (closed <==> old(closed) || e.Closed?)
    {
      match e
      case HandlerEnded(id) =>
        if id in slots {
          slots := slots[id := slots[id].(handlerDone := true)];
        }
      case Recorded(id, outcome, late, detected) =>
        if id in slots {
          Record(id, outcome, late, detected);
        }
      case StopRequested =>
        stopping := true;
      case Closed =>
        stopping, closed := true, true;
    }

    /**
     Wait, one turn at a time, until every target has its outcome or the runtime is closed.
     A wait that its turns leave unfinished goes on until the runtime is closed.
     */
    method WaitFor(targets: set<string>, rounds: seq<seq<Event>>)
      requires Valid() && targets <= slots.Keys
      modifies this`active, this`slots, this`metrics, this`stopping, this`closed
      ensures Valid() && Forward(old(slots)) && active <= old(active) && slots.Keys == old(slots).Keys
      ensures metrics.claimed == old(metrics.claimed) && metrics.started == old(metrics.started)
              && metrics.poisoned == old(metrics.poisoned)
      ensures !closed ==> AllDone(slots, targets)
      ensures old(closed) ==> closed
    {
      hide Sound;
      for i := 0 to |rounds|
        invariant Valid() && Forward(old(slots)) && active <= old(active) && slots.Keys == old(slots).Keys
        invariant metrics.claimed == old(metrics.claimed) && metrics.started == old(metrics.started)
                  && metrics.poisoned == old(metrics.poisoned)
        invariant old(closed) ==> closed
      {
        Monitor(rounds[i]);
        if forall id :: id in targets ==> slots[id].outcome.Some? {
          return;
        }
        if closed {
          return;
        }
      }
      stopping, closed := true, true;
    }

    /**
     One cycle. Claimed work is started or poisoned, item by item; the report
     conserves it, and capacity is never exceeded.
     */
    method RunCycle(c: Cycle) returns (r: RunResult, started: seq<string>, tally: Tally, claimErrors: nat)
      requires Valid()
      modifies this`active, this`slots, this`metrics, this`stopping, this`closed
      ensures Valid() && r.active == |active| <= maxConcurrency
      ensures c.wait && !closed ==>
                && Count(slots, started, Pending) == 0 && Total(Outcomes(slots, started)) == |started|
                && r.claimed + Count(slots, started, Released) + claimErrors
                   == r.succeeded + r.failed + r.cancelled + r.leaseLost + r.queueErrors
      ensures c.wait && !closed && !old(stopping) && started == [] ==> AllDone(slots, active)
      ensures r.claimed == r.started + r.poisoned
      ensures Listed(started, slots.Keys) && Reports(r, tally, slots, started)
      ensures r.claimed + Count(slots, started, Released) + claimErrors
              == r.succeeded + r.failed + r.cancelled + r.leaseLost + r.queueErrors + Count(slots, started, Pending)
      ensures claimErrors <= 1 && (claimErrors == 1 ==> r.claimed == 0)
      ensures metrics.claimed == old(metrics.claimed) + r.claimed
              && metrics.started == old(metrics.started) + r.started
              && metrics.poisoned == old(metrics.poisoned) + r.poisoned
    {
      hide Outcomes, Shows, Bump, Total, Sound, Reports, Count, Listed, AllDone;
      claimErrors := 0;
      if stopping {
        NothingStarted(slots, |active|);
        return RunResult(0, 0, 0, 0, 0, 0, 0, 0, 0, false, |active|), [], NOTHING, 0;
      }
      Monitor(c.first);
      var capacity := maxConcurrency - |active|;
      var existing := active;
      var arrivals;
      arrivals, claimErrors := ClaimWork(c, capacity);
      var poisoned, errors;
      ghost var entered, verdicts;
      started, tally, poisoned, errors, entered, verdicts := Admit(arrivals, capacity);
      Widen(started, entered, slots.Keys);
      Complete(started, existing, capacity <= 0, c);
      r := Report(arrivals, started, tally, poisoned, claimErrors + errors, capacity <= 0);
    }

    /** Ask the queue for work within the capacity; a failed or oversized answer is an error and no work. */
    method ClaimWork(c: Cycle, capacity: int) returns (arrivals: seq<Arrival>, claimErrors: nat)
      requires Valid()
      modifies this`metrics
      ensures Valid() && metrics.started == old(metrics.started) && metrics.poisoned == old(metrics.poisoned)
      ensures metrics.claimed == old(metrics.claimed) + |arrivals|
      ensures if capacity > 0 && c.arrivals.Some? && |c.arrivals.value| <= capacity
              then arrivals == c.arrivals.value && claimErrors == 0
              else arrivals == [] && claimErrors == if capacity > 0 then 1 else 0
    {
      arrivals, claimErrors := [], 0;
      if capacity > 0 {
        if c.arrivals.None? || |c.arrivals.value| > capacity {
          metrics := metrics.(queueErrors := metrics.queueErrors + 1);
          claimErrors := 1;
        } else {
          arrivals := c.arrivals.value;
        }
      }
      metrics := metrics.(claimed := metrics.claimed + |arrivals|);
    }

    /** Wait for what the cycle started or, if it started nothing, for what was there. */
    method Await(started: seq<string>, existing: set<string>, full: bool, c: Cycle)
      requires Valid() && existing <= slots.Keys && forall id :: id in started ==> id in slots
      modifies this`active, this`slots, this`metrics, this`stopping, this`closed
      ensures Valid() && Forward(old(slots)) && active <= old(active) && slots.Keys == old(slots).Keys
      ensures metrics.claimed == old(metrics.claimed) && metrics.started == old(metrics.started)
              && metrics.poisoned == old(metrics.poisoned)
      ensures c.wait && !closed ==>
                if started != [] then AllDone(slots, IdSet(started)) else AllDone(slots, existing)
      ensures old(closed) ==> closed
    {
      hide Sound;
      if c.wait {
        if started != [] {
          WaitFor(IdSet(started), c.rounds);
        } else if full || existing != {} {
          WaitFor(existing, c.rounds);
        }
      }
    }

    /** Wait if asked to, and look once more: what was started keeps its place in the account. */
    method Complete(started: seq<string>, existing: set<string>, full: bool, c: Cycle)
      requires Valid() && existing <= slots.Keys && Listed(started, slots.Keys) && (started == [] ==> active <= existing)
      modifies this`active, this`slots, this`metrics, this`stopping, this`closed
      ensures Valid() && slots.Keys == old(slots).Keys
      ensures metrics.claimed == old(metrics.claimed) && metrics.started == old(metrics.started)
              && metrics.poisoned == old(metrics.poisoned)
      ensures Settled(old(slots), slots, started)
      ensures c.wait && !closed ==>
                Count(slots, started, Pending) == 0 && (started == [] ==> AllDone(slots, active))
    {
      hide Count, AllDone, Settled, Onward;
      ghost var launched := slots;
      Await(started, existing, full, c);
      ghost var waited := slots;
      Monitor(c.last);
      OnwardTrans(launched, waited, slots);
      Settles(launched, slots, started);
      if c.wait && !closed {
        Concluded(waited, slots, started, existing, active);
      }
    }

    /** Count what became of the cycle's executions and add what was settled on the spot. */
    method Report(
        arrivals: seq<Arrival>, started: seq<string>, tally: Tally, poisoned: nat, errors: nat, full: bool)
      returns (r: RunResult)
      ensures r.claimed == |arrivals| && r.active == |active| && Reports(r, tally, slots, started)
      ensures r.started == Count(slots, started, Started)
      ensures r.poisoned == poisoned + Count(slots, started, Unlaunched)
      ensures r.queueErrors == errors + Count(slots, started, Troubled)
      ensures r.succeeded + r.failed + r.cancelled + r.leaseLost
              == Total(tally) - tally.queueError + Total(Outcomes(slots, started)) - Outcomes(slots, started).queueError
    {
      var outcomes := Outcomes(slots, started);
      r := RunResult(
        |arrivals|, Count(slots, started, Started),
        tally.succeeded + outcomes.succeeded, tally.failed + outcomes.failed,
        tally.cancelled + outcomes.cancelled, tally.leaseLost + outcomes.leaseLost,
        poisoned + Count(slots, started, Unlaunched), errors + Count(slots, started, Troubled),
        Count(slots, started, Late), full, |active|);
    }

    /** Start or poison each claimed item; no job is admitted twice. */
    method Admit(arrivals: seq<Arrival>, capacity: int)
      returns (started: seq<string>, tally: Tally, poisoned: nat, errors: nat, ghost entered: set<string>, ghost verdicts: seq<Verdict>)
      requires Valid() && |arrivals| <= capacity && |active| + capacity <= maxConcurrency
      modifies this`active, this`slots, this`metrics, this`stopping, this`closed
      ensures Valid() && old(slots).Keys <= slots.Keys && (old(closed) ==> closed)
      ensures Listed(started, entered) && old(active) !! entered && active <= old(active) + entered <= slots.Keys
      ensures forall id :: id in entered ==> id in started
      ensures |arrivals| == |started| + poisoned && tally.queueError == 0
      ensures Total(tally) + errors == poisoned
      ensures Balanced(old(metrics), metrics, slots, started, poisoned)
      ensures Judged(arrivals, old(active), verdicts)
    {
      StartedNone(slots, metrics);
      BumpAddsOne(NOTHING, CountFailed);
      hide Balanced, Listed, Registered, Sound, Bump, Total, Onward, Remembered, Judged, Kept;
      ghost var first := metrics;
      started, tally, poisoned, errors, entered, verdicts := [], NOTHING, 0, 0, {}, [];
      ghost var before := active;
      var admitted := active;
      NothingRemembered(before);
      assert arrivals[..0] == [];
      KeptNone(before, slots.Keys);
      for i := 0 to |arrivals|
        invariant Valid() && old(slots).Keys <= slots.Keys && (old(closed) ==> closed)
        invariant Listed(started, entered) && Kept(before, entered, admitted, active, slots.Keys, started, i)
        invariant admitted == Remembered(before, arrivals[..i])
        invariant i == |started| + poisoned && tally.queueError == 0 && Total(tally) + errors == poisoned
        invariant Balanced(first, metrics, slots, started, poisoned)
        invariant Judged(arrivals[..i], before, verdicts)
      {
        var a := arrivals[i];
        assert arrivals[..i + 1] == arrivals[..i] + [a];
        KeptGives(before, entered, admitted, active, slots.Keys, started, i);
        ghost var busy, known := active, slots.Keys;
        var verdict := AdmitNext(a, admitted, first, started, poisoned, entered);
        KeptGrows(before, entered, admitted, busy, known, started, i, active, slots.Keys, a.id, verdict);
        if verdict.Running? {
          started, entered := started + [a.id], entered + {a.id};
        } else {
          poisoned := poisoned + 1;
          if verdict.Malformed? || verdict.outcome.CountQueueError? {
            errors := errors + 1;
          } else {
            BumpAddsOne(tally, verdict.outcome);
            tally := Bump(tally, verdict.outcome);
          }
        }
        RememberedGrows(before, arrivals[..i], a);
        JudgedGrows(arrivals[..i], a, before, verdicts, verdict);
        verdicts := verdicts + [verdict];
        if !verdict.Malformed? {
          admitted := admitted + {a.id};
        }
      }
      assert arrivals[..|arrivals|] == arrivals;
      KeptGives(before, entered, admitted, active, slots.Keys, started, |arrivals|);
    }

    /** The next claimed item, after what other threads did meanwhile: the account goes on. */
    method AdmitNext(
        a: Arrival, admitted: set<string>, ghost first: Metrics, ghost started: seq<string>, ghost poisoned: nat,
        ghost entered: set<string>)
      returns (v: Verdict)
      requires Valid() && active <= admitted && |active| < maxConcurrency
      requires Listed(started, entered) && entered <= slots.Keys && entered <= admitted
      requires Balanced(first, metrics, slots, started, poisoned)
      modifies this`active, this`slots, this`metrics, this`stopping, this`closed
      ensures Valid() && old(slots).Keys <= slots.Keys && (old(closed) ==> closed)
      ensures v.Malformed? <==> !a.valid || a.id in admitted
      ensures v.PoisonedAs? <==> !v.Malformed? && (!a.fits || !a.known || a.launch.Refused?)
      ensures |active| <= |old(active)| + 1
      ensures if v.Running?
              then && Listed(started + [a.id], entered + {a.id}) && a.id in slots
                   && Balanced(first, metrics, slots, started + [a.id], poisoned)
                   && active <= old(active) + {a.id}
              else Balanced(first, metrics, slots, started, poisoned + 1) && active <= old(active)
    {
      hide Balanced, Listed, Sound, Onward;
      ghost var quiet, unmoved, busy := slots, metrics, active;
      Monitor(a.meanwhile);
      SubsetSize(active, busy);
      BalancedStays(first, unmoved, metrics, quiet, slots, started, poisoned, entered);
      ghost var previous, counted := slots, metrics;
      v := AdmitOne(a, admitted);
      if v.Running? {
        StartedGrows(first, counted, metrics, previous, started, poisoned, entered, a.id, v.launched);
      } else {
        PoisonedGrows(first, counted, metrics, slots, started, poisoned);
      }
    }

    /** One claimed item: refused as malformed or known, poisoned, or registered as an execution. */
    method AdmitOne(a: Arrival, admitted: set<string>) returns (v: Verdict)
      requires Valid() && active <= admitted && |active| < maxConcurrency
      modifies this`active, this`slots, this`metrics
      ensures Valid() && metrics.claimed == old(metrics.claimed)
      ensures v.Malformed? <==> !a.valid || a.id in admitted
      ensures v.PoisonedAs? <==> !v.Malformed? && (!a.fits || !a.known || a.launch.Refused?)
      ensures v.Running? ==>
                && active == old(active) + {a.id} && v.launched == a.launch.Launched?
                && slots == Registered(old(slots), a.id, v.launched)
                && metrics.started == old(metrics.started) + (if v.launched then 1 else 0)
                && metrics.poisoned == old(metrics.poisoned) + if v.launched then 0 else 1
      ensures !v.Running? ==>
                && active == old(active) && slots == old(slots)
                && metrics.started == old(metrics.started) && metrics.poisoned == old(metrics.poisoned) + 1
    {
      if !a.valid || a.id in admitted {
        metrics := metrics.(poisoned := metrics.poisoned + 1, queueErrors := metrics.queueErrors + 1);
        return Malformed;
      }
      if !a.fits || !a.known || a.launch.Refused? {
        Poison(a.poison);
        return PoisonedAs(a.poison);
      }
      var launched := a.launch.Launched?;
      slots := Registered(slots, a.id, launched);
      active := active + {a.id};
      if launched {
        metrics := metrics.(started := metrics.started + 1);
      } else {
        metrics := metrics.(poisoned := metrics.poisoned + 1);
      }
      return Running(launched);
    }

    /** Fail a claim that cannot run; the queue's answer decides how it is counted. */
    method Poison(outcome: Outcome)
      modifies this`metrics
      ensures metrics == old(metrics).(
                poisoned := old(metrics.poisoned) + 1,
                outcomes := if outcome.CountQueueError? then old(metrics.outcomes) else Bump(old(metrics.outcomes), outcome),
                queueErrors := old(metrics.queueErrors) + if outcome.CountQueueError? then 1 else 0)
    {
      metrics := metrics.(poisoned := metrics.poisoned + 1);
      if outcome.CountQueueError? {
        metrics := metrics.(queueErrors := metrics.queueErrors + 1);
      } else {
        metrics := metrics.(outcomes := Bump(metrics.outcomes, outcome));
      }
    }

    /**
     The daemon: cycles until stopped or too many queue errors in a row; its totals
     are the differences of the metrics over the whole run.
     */
    method RunDaemon(cycles: seq<Cycle>, ending: seq<Event>) returns (totals: RunResult)
      requires Valid()
      modifies this
      ensures Valid() && totals.active == |active|
      ensures Accounts(totals, old(metrics), metrics)
    {
      totals := RunResult(0, 0, 0, 0, 0, 0, 0, 0, 0, false, 0);
      var previous := metrics;
      ghost var start := metrics;
      for i := 0 to |cycles|
        invariant Valid() && previous == metrics && Accounts(totals, start, metrics)
      {
        if stopping {
          break;
        }
        var batch, _, _, _ := RunCycle(cycles[i].(wait := false));
        totals := Consume(totals, batch, previous, metrics);
        CountErrors(metrics.queueErrors - previous.queueErrors, false);
        previous := metrics;
      }
      Monitor(ending);
      totals := Consume(totals, RunResult(0, 0, 0, 0, 0, 0, 0, 0, 0, false, |active|), previous, metrics);
      CountErrors(metrics.queueErrors - previous.queueErrors, true);
    }

    /** Claims are added up from the batches, outcomes from the counters that survive reaping. */
    function Consume(totals: RunResult, batch: RunResult, previous: Metrics, current: Metrics): RunResult {
      RunResult(
        totals.claimed + batch.claimed, totals.started + batch.started,
        totals.succeeded + (current.outcomes.succeeded - previous.outcomes.succeeded),
        totals.failed + (current.outcomes.failed - previous.outcomes.failed),
        totals.cancelled + (current.outcomes.cancelled - previous.outcomes.cancelled),
        totals.leaseLost + (current.outcomes.leaseLost - previous.outcomes.leaseLost),
        totals.poisoned + batch.poisoned,
        totals.queueErrors + (current.queueErrors - previous.queueErrors),
        totals.timedOut + (current.timedOut - previous.timedOut),
        totals.backpressured || batch.backpressured, batch.active)
    }

    method CountErrors(errors: int, final: bool)
      modifies this`errorStreak, this`stopping
      ensures errors != 0 ==> errorStreak == old(errorStreak) + errors
                              && (stopping <==> old(stopping) || maxErrors <= errorStreak)
      ensures errors == 0 ==> errorStreak == (if final then old(errorStreak) else 0) && stopping == old(stopping)
    {
      if errors != 0 {
        errorStreak := errorStreak + errors;
        if maxErrors <= errorStreak {
          stopping := true;
        }
      } else if !final {
        errorStreak := 0;
      }
    }
  }

  /** Every figure of a report counts its own outcome: settled on the spot, or reached by a started execution. */
  ghost predicate Reports(r: RunResult, tally: Tally, slots: map<string, Slot>, started: seq<string>) {
    var outcomes := Outcomes(slots, started);
    && r.started == Count(slots, started, Started) && r.timedOut == Count(slots, started, Late)
    && r.succeeded == tally.succeeded + outcomes.succeeded && r.failed == tally.failed + outcomes.failed
    && r.cancelled == tally.cancelled + outcomes.cancelled && r.leaseLost == tally.leaseLost + outcomes.leaseLost
  }

  lemma NothingStarted(slots: map<string, Slot>, active: int)
    ensures Reports(RunResult(0, 0, 0, 0, 0, 0, 0, 0, 0, false, active), NOTHING, slots, [])
    ensures Count(slots, [], Released) == 0 && Count(slots, [], Pending) == 0 && Listed([], slots.Keys)
    ensures Total(Outcomes(slots, [])) == 0
  {
    assert Outcomes(slots, []) == NOTHING;
  }

  /** The totals of a run equal the growth of every counter. */
  ghost predicate Accounts(totals: RunResult, before: Metrics, after: Metrics) {
    && totals.claimed == after.claimed - before.claimed
    && totals.started == after.started - before.started
    && totals.poisoned == after.poisoned - before.poisoned
    && totals.succeeded == after.outcomes.succeeded - before.outcomes.succeeded
    && totals.failed == after.outcomes.failed - before.outcomes.failed
    && totals.cancelled == after.outcomes.cancelled - before.outcomes.cancelled
    && totals.leaseLost == after.outcomes.leaseLost - before.outcomes.leaseLost
    && totals.queueErrors == after.queueErrors - before.queueErrors
    && totals.timedOut == after.timedOut - before.timedOut
  }
}
