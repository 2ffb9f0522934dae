/**
 How many tasks run at once. `max_workers` is documented as the exact bound, but a
 `run_next` call claims beside the worker threads; this says when the bound holds.
 */
module LocalBound {
  import opened Common
  import opened LocalRunner
  import opened LocalRuns

  function BusyWorkers(executing: map<Caller, nat>): set<Caller> {
    set c | c in executing && c.Worker?
  }

  function CallsInFlight(executing: map<Caller, nat>): set<Caller> {
    set c | c in executing && c.Synchronous?
  }

  /** Distinct workers below `n` are at most `n`. */
  lemma {:induction false} WorkersBelow(cs: set<Caller>, n: nat)
    requires forall c :: c in cs ==> c.Worker? && c.slot < n
    ensures |cs| <= n
  {
    if n == 0 {
      assert cs == {};
    } else {
      var rest := cs - {Worker(n - 1)};
      WorkersBelow(rest, n - 1);
      SubsetSize(cs, rest + {Worker(n - 1)});
    }
  }

  lemma {:induction false} CallsBelow(cs: set<Caller>, n: nat)
    requires forall c :: c in cs ==> c.Synchronous? && c.call < n
    ensures |cs| <= n
  {
    if n == 0 {
      assert cs == {};
    } else {
      var rest := cs - {Synchronous(n - 1)};
      CallsBelow(rest, n - 1);
      SubsetSize(cs, rest + {Synchronous(n - 1)});
    }
  }

  /** On every run: what runs is what the busy threads and the `run_next` calls in flight hold. */
  lemma ActiveIsHeld(cfg: Config, acts: seq<Act>)
    ensures var r := After(cfg, acts);
            && r.active == |RunningSerials(r.jobs)|
            && r.active == |BusyWorkers(r.executing)| + |CallsInFlight(r.executing)|
            && |BusyWorkers(r.executing)| <= r.threads <= cfg.maxWorkers
            && r.active <= |r.jobs| <= cfg.maxRetained
  {
    hide After, Books, RunningSerials, QueuedIds;
    AfterSound(cfg, acts);
    var r := After(cfg, acts);
    WorkersBelow(BusyWorkers(r.executing), r.threads);
    assert r.executing.Keys == BusyWorkers(r.executing) + CallsInFlight(r.executing);
    RunningFits(r.jobs);
  }

  lemma {:induction false} RunningFits(jobs: seq<Job>)
    ensures |RunningSerials(jobs)| <= |jobs|
  {
    if jobs != [] {
      RunningFits(jobs[..|jobs| - 1]);
    }
  }

  // ---------------------------------------------------------------- when the bound holds

  /** How a program uses the runner: whether it starts the threads, and how many `run_next` calls it has in flight. */
  datatype Usage = Usage(startable: bool, calls: nat)

  predicate Allows(u: Usage, act: Act) {
    && (act.Start? ==> u.startable)
    && (act.Claim? && act.who.Synchronous? ==> act.who.call < u.calls)
  }

  predicate Permitted(u: Usage, acts: seq<Act>) {
    forall k :: 0 <= k < |acts| ==> Allows(u, acts[k])
  }

  /** The bound on every run that uses the runner this way. */
  ghost predicate Bounded(cfg: Config, u: Usage) {
    forall acts :: Permitted(u, acts) ==> After(cfg, acts).active <= cfg.maxWorkers
  }

  lemma {:induction false} PermittedHeld(cfg: Config, u: Usage, acts: seq<Act>)
    requires Permitted(u, acts)
    ensures forall c :: c in After(cfg, acts).executing && c.Synchronous? ==> c.call < u.calls
    ensures !u.startable ==> !After(cfg, acts).started && After(cfg, acts).threads == 0
  {
    hide Do;
    if acts != [] {
      var before := acts[..|acts| - 1];
      var act := acts[|acts| - 1];
      PermittedHeld(cfg, u, before);
      AfterSound(cfg, before);
      StaffFrame(cfg, After(cfg, before), act);
      forall c | c in After(cfg, acts).executing && c.Synchronous? ensures c.call < u.calls {
        StepHeld(cfg, After(cfg, before), act, c);
      }
      assert Allows(u, act);
    }
  }

  lemma StaffFrame(cfg: Config, r: Runner, act: Act)
    requires Sound(cfg, r)
    ensures Do(cfg, r, act).started ==> r.started || act.Start?
    ensures Do(cfg, r, act).threads != r.threads ==> r.started
  {
    hide First, Sound, CancelQueued, RemoveFirst;
  }

  lemma BoundHolds(cfg: Config, u: Usage, acts: seq<Act>)
    requires Permitted(u, acts)
    requires u.calls == 0 || (!u.startable && u.calls <= cfg.maxWorkers) || cfg.maxRetained <= cfg.maxWorkers
    ensures After(cfg, acts).active <= cfg.maxWorkers
  {
    hide After;
    ActiveIsHeld(cfg, acts);
    PermittedHeld(cfg, u, acts);
    var r := After(cfg, acts);
    CallsBelow(CallsInFlight(r.executing), u.calls);
  }

  // ---------------------------------------------------------------- when it fails

  /** One more step at the end of a run. */
  lemma Grown(cfg: Config, acts: seq<Act>, act: Act)
    ensures After(cfg, acts + [act]) == Do(cfg, After(cfg, acts), act)
  {
    assert (acts + [act])[..|acts|] == acts;
  }

  /** A fresh id for each of the jobs that fill the runner. */
  function Name(n: nat): string {
    seq(n + 1, _ => 'a')
  }

  /** Who claims the `n`th of them: with threads, one `run_next` call before all of them. */
  function Claimant(u: Usage, n: nat): Caller {
    if !u.startable then Synchronous(n) else if n == 0 then Synchronous(0) else Worker(n - 1)
  }

  /** The run that claims `k` jobs and finishes none. */
  ghost function Filling(u: Usage, k: nat): seq<Act> {
    if k == 0 then if u.startable then [Start, Launch] else []
    else Filling(u, k - 1) + [Submit(Name(k - 1)), Claim(Claimant(u, k - 1))]
  }

  ghost predicate Filled(cfg: Config, u: Usage, r: Runner, k: nat) {
    && r.active == k && |r.jobs| == k && r.pending == [] && !r.closing
    && r.threads == (if u.startable then cfg.maxWorkers else 0)
    && (forall i :: 0 <= i < k ==> |r.jobs[i].id| <= k)
    && (forall i: nat :: k <= i ==> Claimant(u, i) !in r.executing)
  }

  lemma FillOne(cfg: Config, u: Usage, r: Runner, k: nat)
    requires cfg.Allowed() && Filled(cfg, u, r, k) && k <= cfg.maxWorkers < cfg.maxRetained
    ensures Filled(cfg, u, Claimed(Submitted(cfg, r, Name(k)), Claimant(u, k)), k + 1)
  {
    hide First;
    var j := Fresh(Name(k), r.nextSerial);
    var jobs := r.jobs + [j];
    assert First(r.jobs, ById(Name(k))).None?;
    var mid := Admitted(r, r.jobs, Name(k));
    assert Submitted(cfg, r, Name(k)) == mid && mid.pending == [Name(k)];
    assert ById(Name(k)).Holds(jobs[k]);
    assert First(jobs, ById(Name(k))) == Some(k);
    assert Claimed(mid, Claimant(u, k)) == Taken(mid, Claimant(u, k), k);
  }

  lemma {:induction false} FillingFills(cfg: Config, u: Usage, k: nat)
    requires cfg.Allowed() && k <= cfg.maxWorkers + 1 <= cfg.maxRetained
    ensures Filled(cfg, u, After(cfg, Filling(u, k)), k)
  {
    hide After, Filled, Submitted, Claimed;
    if k == 0 {
      FilledNone(cfg, u);
    } else {
      FillingFills(cfg, u, k - 1);
      var acts := Filling(u, k - 1);
      var submit, claim := Submit(Name(k - 1)), Claim(Claimant(u, k - 1));
      Grown(cfg, acts, submit);
      Grown(cfg, acts + [submit], claim);
      assert acts + [submit] + [claim] == Filling(u, k);
      FillOne(cfg, u, After(cfg, acts), k - 1);
    }
  }

  lemma FilledNone(cfg: Config, u: Usage)
    requires cfg.Allowed()
    ensures Filled(cfg, u, After(cfg, Filling(u, 0)), 0)
  {
    if u.startable {
      Grown(cfg, [], Start);
      Grown(cfg, [Start], Launch);
      assert [] + [Start] == [Start] && [Start] + [Launch] == Filling(u, 0);
    }
  }

  lemma {:induction false} FillingPermitted(cfg: Config, u: Usage, k: nat)
    requires k <= cfg.maxWorkers + 1 && u.calls != 0 && (u.startable || cfg.maxWorkers < u.calls)
    ensures Permitted(u, Filling(u, k))
  {
    if k != 0 {
      FillingPermitted(cfg, u, k - 1);
    }
  }

  /**
   `max_workers` bounds what runs in every run of a usage, exactly when nobody calls
   `run_next`, or the threads are never started and no more than `max_workers` calls are in
   flight, or the dictionary has no room for more jobs than that anyway.
   */
  lemma BoundIff(cfg: Config, u: Usage)
    requires cfg.Allowed()
    ensures Bounded(cfg, u) <==>
            u.calls == 0 || (!u.startable && u.calls <= cfg.maxWorkers) || cfg.maxRetained <= cfg.maxWorkers
  {
    hide After;
    if u.calls == 0 || (!u.startable && u.calls <= cfg.maxWorkers) || cfg.maxRetained <= cfg.maxWorkers {
      forall acts | Permitted(u, acts) ensures After(cfg, acts).active <= cfg.maxWorkers {
        BoundHolds(cfg, u, acts);
      }
    } else {
      var acts := Filling(u, cfg.maxWorkers + 1);
      FillingFills(cfg, u, cfg.maxWorkers + 1);
      FillingPermitted(cfg, u, cfg.maxWorkers + 1);
      assert Permitted(u, acts) && After(cfg, acts).active > cfg.maxWorkers;
    }
  }

  /** One thread and one `run_next` call run two tasks, though the call claims while none runs. */
  lemma OneWorkerTwoTasks()
    ensures var cfg := Config(8, 1, 8);
            var acts := [Start, Launch, Submit("a"), Claim(Synchronous(0)), Submit("aa"), Claim(Worker(0))];
            && cfg.Allowed()
            && acts[3] == Claim(Synchronous(0)) && After(cfg, acts[..3]).active == 0
            && After(cfg, acts).active == |RunningSerials(After(cfg, acts).jobs)| == 2 > cfg.maxWorkers
  {
    hide After, RunningSerials, Submitted;
    var cfg, u := Config(8, 1, 8), Usage(true, 1);
    var acts := [Start, Launch, Submit("a"), Claim(Synchronous(0)), Submit("aa"), Claim(Worker(0))];
    FillingFills(cfg, u, 2);
    ActiveIsHeld(cfg, acts);
    assert Name(0) == "a" && Name(1) == "aa";
    assert Filling(u, 0) == [Start, Launch];
    assert Filling(u, 1) == [Start, Launch, Submit("a"), Claim(Synchronous(0))];
    assert Filling(u, 2) == acts;
    FillingFills(cfg, u, 0);
    Grown(cfg, [Start, Launch], Submit("a"));
    assert acts[..3] == [Start, Launch] + [Submit("a")];
    SubmitFrame(cfg, After(cfg, [Start, Launch]), "a");
    assert Do(cfg, After(cfg, [Start, Launch]), Submit("a")).active == 0;
  }
}
