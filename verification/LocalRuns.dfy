/**
 Runs of the in-memory runner: any number of threads and callers, their steps in any order.
 What the bookkeeping promises of every run, and exactly when `max_workers` bounds what runs.
 */
module LocalRuns {
  import opened Common
  import opened LocalRunner

  /** The runner after these steps, from a fresh one. */
  ghost function After(cfg: Config, acts: seq<Act>): Runner {
    if acts == [] then FRESH
    else Do(cfg, After(cfg, acts[..|acts| - 1]), acts[|acts| - 1])
  }

  lemma {:induction false} AfterSound(cfg: Config, acts: seq<Act>)
    ensures Sound(cfg, After(cfg, acts))
  {
    hide Do;
    if acts == [] {
      assert QueuedIds([]) == [] && RunningSerials([]) == [];
    } else {
      AfterSound(cfg, acts[..|acts| - 1]);
      DoKeeps(cfg, After(cfg, acts[..|acts| - 1]), acts[|acts| - 1]);
    }
  }

  /** The step that follows the first `n`. */
  lemma NextState(cfg: Config, acts: seq<Act>, n: nat)
    requires n < |acts|
    ensures After(cfg, acts[..n + 1]) == Do(cfg, After(cfg, acts[..n]), acts[n])
  {
    assert acts[..n + 1][..n] == acts[..n];
  }

  // ---------------------------------------------------------------- one job through a run

  ghost function JobOf(jobs: seq<Job>, serial: nat): Option<Job> {
    match First(jobs, BySerial(serial))
    case Some(i) => Some(jobs[i])
    case None => None
  }

  lemma JobOfIff(jobs: seq<Job>, serial: nat)
    requires Distinct(jobs)
    ensures forall j :: JobOf(jobs, serial) == Some(j) <==> j in jobs && j.serial == serial
  {
    hide First;
  }

  /** What may become of a job: a finished one is as it was or gone, and the gone stays gone. */
  ghost predicate Later(was: Option<Job>, now: Option<Job>) {
    match was
    case None => now.None?
    case Some(a) =>
      now.Some? ==>
        var b := now.value;
        && b.id == a.id && b.serial == a.serial
        && (a.status.Terminal() ==> b == a)
        && (b.status.Queued? ==> a.status.Queued?) && (a.started ==> b.started)
  }

  /** One step besides drops only what has ended, and ends what is queued only by cancelling it. */
  ghost predicate Onward(was: Option<Job>, now: Option<Job>) {
    && Later(was, now)
    && (was.Some? && now.None? ==> was.value.status.Terminal())
    && (was.Some? && now.Some? && was.value.status.Queued? && now.value.status.Terminal() ==>
          now.value.status.Cancelled? && !now.value.started)
  }

  lemma UpdateOnward(jobs: seq<Job>, i: nat, j: Job, serial: nat)
    requires Distinct(jobs) && i < |jobs| && j.id == jobs[i].id && j.serial == jobs[i].serial
    ensures JobOf(jobs[i := j], serial) == if serial == j.serial then Some(j) else JobOf(jobs, serial)
    ensures serial == j.serial ==> JobOf(jobs, serial) == Some(jobs[i])
  {
    hide First;
    JobOfIff(jobs, serial);
    JobOfIff(jobs[i := j], serial);
    var after := jobs[i := j];
    if serial == j.serial {
      assert after[i] in after && jobs[i] in jobs;
    } else {
      forall k | 0 <= k < |jobs| && jobs[k].serial == serial ensures after[k] == jobs[k] && jobs[k] in after {
        assert after[k] in after;
      }
    }
  }

  lemma EvictOnward(jobs: seq<Job>, i: nat, serial: nat)
    requires Distinct(jobs) && i < |jobs|
    ensures JobOf(Without(jobs, i), serial) == if serial == jobs[i].serial then None else JobOf(jobs, serial)
    ensures serial == jobs[i].serial ==> JobOf(jobs, serial) == Some(jobs[i])
  {
    hide First;
    var after := Without(jobs, i);
    JobOfIff(jobs, serial);
    JobOfIff(after, serial);
    forall j: Job | j.serial == serial && serial != jobs[i].serial ensures j in after <==> j in jobs {
      assert jobs == jobs[..i] + [jobs[i]] + jobs[i + 1..];
    }
    assert jobs[i] in jobs;
  }

  lemma PushOnward(jobs: seq<Job>, j: Job, serial: nat)
    requires Distinct(jobs + [j]) && serial != j.serial
    ensures JobOf(jobs + [j], serial) == JobOf(jobs, serial)
  {
    hide First;
    var after := jobs + [j];
    assert Distinct(jobs) by {
      assert forall k :: 0 <= k < |jobs| ==> jobs[k] == after[k];
    }
    JobOfIff(jobs, serial);
    JobOfIff(after, serial);
    assert forall x :: x in after <==> x in jobs || x == j;
  }

  lemma CancelOnward(jobs: seq<Job>, serial: nat)
    requires Distinct(jobs)
    ensures JobOf(CancelQueued(jobs), serial) ==
            match JobOf(jobs, serial)
            case None => None
            case Some(a) => Some(if a.status.Queued? then a.(status := Cancelled) else a)
  {
    hide First, CancelQueued;
    var after := CancelQueued(jobs);
    JobOfIff(jobs, serial);
    JobOfIff(after, serial);
    match JobOf(jobs, serial) {
      case Some(a) =>
        var k :| 0 <= k < |jobs| && jobs[k] == a;
        assert after[k] in after;
      case None =>
        forall k | 0 <= k < |jobs| ensures after[k].serial != serial {
          assert jobs[k] in jobs;
        }
    }
  }

  lemma SubmitOnward(cfg: Config, r: Runner, id: string, serial: nat)
    requires Sound(cfg, r) && serial < r.nextSerial
    ensures Onward(JobOf(r.jobs, serial), JobOf(Submitted(cfg, r, id).jobs, serial))
  {
    hide First, QueuedIds, RunningSerials, Staffed, Fits, JobOf;
    JobKnown(cfg, r, serial);
    SubmitKeeps(cfg, r, id);
    if Submitted(cfg, r, id) != r {
      var j := Fresh(id, r.nextSerial);
      if |r.jobs| < cfg.maxRetained {
        PushOnward(r.jobs, j, serial);
      } else {
        var i := First(r.jobs, ByTerminal).value;
        PushOnward(Without(r.jobs, i), j, serial);
        EvictOnward(r.jobs, i, serial);
      }
    }
  }

  lemma JobKnown(cfg: Config, r: Runner, serial: nat)
    requires Sound(cfg, r)
    ensures Distinct(r.jobs)
    ensures Onward(JobOf(r.jobs, serial), JobOf(r.jobs, serial))
    ensures JobOf(r.jobs, serial).Some? ==>
              JobOf(r.jobs, serial).value.serial == serial && Fits(JobOf(r.jobs, serial).value, r.claimed, r.finished)
  {
    hide First, QueuedIds, RunningSerials, Staffed, Fits;
  }

  lemma CancelRequestOnward(cfg: Config, r: Runner, id: string, serial: nat)
    requires Sound(cfg, r)
    ensures Onward(JobOf(r.jobs, serial), JobOf(CancelRequested(r, id).jobs, serial))
  {
    hide First, QueuedIds, RunningSerials, Staffed, Books, RemoveFirst, JobOf;
    JobKnown(cfg, r, serial);
    var at := First(r.jobs, ById(id));
    if at.Some? && !r.jobs[at.value].status.Terminal() {
      var i := at.value;
      var j := if r.jobs[i].status.Queued? then r.jobs[i].(status := Cancelled) else r.jobs[i].(cancelRequested := true);
      BooksAt(r.jobs, i, r.nextSerial, r.claimed, r.finished);
      UpdateOnward(r.jobs, i, j, serial);
    }
  }

  lemma ClaimOnward(cfg: Config, r: Runner, who: Caller, serial: nat)
    requires Sound(cfg, r)
    ensures Onward(JobOf(r.jobs, serial), JobOf(Claimed(r, who).jobs, serial))
    ensures Claimed(r, who) == r || exists i: nat :: i < |r.jobs| && TakesHead(cfg, r, who, i) && Claimed(r, who) == Taken(r, who, i)
  {
    hide First, QueuedIds, RunningSerials, Staffed, Books, JobOf, Sound;
    JobKnown(cfg, r, serial);
    if MayClaim(r, who) && r.pending != [] {
      HeadIsFirst(cfg, r);
      var i := First(r.jobs, ById(r.pending[0])).value;
      TakenKeeps(cfg, r, who, i);
      assert TakesHead(cfg, r, who, i);
      UpdateOnward(r.jobs, i, r.jobs[i].(status := Running, started := true), serial);
    }
  }

  /** Job `i` is the one a claim takes: the first queued one, never claimed before. */
  ghost predicate TakesHead(cfg: Config, r: Runner, who: Caller, i: nat)
    requires i < |r.jobs|
  {
    && r.pending != [] && MayClaim(r, who) && r.jobs[i].status.Queued?
    && QueuedIds(r.jobs[..i]) == [] && r.jobs[i].serial !in r.claimed
  }

  lemma FinishOnward(cfg: Config, r: Runner, who: Caller, ending: Ending, serial: nat)
    requires Sound(cfg, r)
    ensures var after := Finished(r, who, ending);
            && Onward(JobOf(r.jobs, serial), JobOf(after.jobs, serial))
            && after.claimed == r.claimed && after.nextSerial == r.nextSerial
            && (who !in r.executing ==> after == r)
            && (who in r.executing ==>
                  && after.executing == r.executing - {who} && after.active == r.active - 1
                  && after.finished == r.finished + {r.executing[who]} && r.executing[who] !in r.finished
                  && r.executing[who] in r.claimed
                  && (serial == r.executing[who] ==>
                        && JobOf(r.jobs, serial).Some? && JobOf(r.jobs, serial).value.status.Running?
                        && JobOf(after.jobs, serial) == Some(JobOf(r.jobs, serial).value.(status := ending)))
                  && (serial != r.executing[who] ==> JobOf(after.jobs, serial) == JobOf(r.jobs, serial)))
  {
    hide First, QueuedIds, RunningSerials, Staffed, Books, JobOf, Sound;
    JobKnown(cfg, r, serial);
    if who in r.executing {
      HeldIsRunning(cfg, r, who);
      var i := First(r.jobs, BySerial(r.executing[who])).value;
      UpdateOnward(r.jobs, i, r.jobs[i].(status := ending), serial);
    }
  }

  /** One step, seen from one job submitted before it. */
  lemma StepOnward(cfg: Config, r: Runner, act: Act, serial: nat)
    requires Sound(cfg, r) && serial < r.nextSerial
    ensures Onward(JobOf(r.jobs, serial), JobOf(Do(cfg, r, act).jobs, serial))
    ensures serial < Do(cfg, r, act).nextSerial
  {
    hide First, QueuedIds, RunningSerials, Staffed, Fits, Sound, JobOf, RemoveFirst, CancelQueued;
    JobKnown(cfg, r, serial);
    match act
    case Submit(id) => SubmitOnward(cfg, r, id, serial);
    case Cancel(id) => CancelRequestOnward(cfg, r, id, serial);
    case Claim(who) => ClaimOnward(cfg, r, who, serial);
    case Finish(who, ending) => FinishOnward(cfg, r, who, ending, serial);
    case Shutdown(cancelPending) => ShutdownOnward(cfg, r, cancelPending, serial);
    case _ =>
  }

  lemma ShutdownOnward(cfg: Config, r: Runner, cancelPending: bool, serial: nat)
    requires Sound(cfg, r)
    ensures Onward(JobOf(r.jobs, serial), JobOf(ShutDown(r, cancelPending).jobs, serial))
  {
    hide First, QueuedIds, RunningSerials, Staffed, JobOf, Sound, CancelQueued;
    JobKnown(cfg, r, serial);
    CancelOnward(r.jobs, serial);
  }

  /** A job that has ended is never relabelled: it stays as it is until it is dropped, and then its serial is gone for good. */
  lemma {:induction false} EndedForever(cfg: Config, acts: seq<Act>, n: nat, serial: nat)
    requires n <= |acts| && serial < After(cfg, acts[..n]).nextSerial
    ensures Later(JobOf(After(cfg, acts[..n]).jobs, serial), JobOf(After(cfg, acts).jobs, serial))
    ensures serial < After(cfg, acts).nextSerial
  {
    hide First, JobOf, Do, Sound;
    AfterSound(cfg, acts[..n]);
    JobKnown(cfg, After(cfg, acts[..n]), serial);
    if n == |acts| {
      assert acts[..n] == acts;
    } else {
      var before := acts[..|acts| - 1];
      assert before[..n] == acts[..n];
      EndedForever(cfg, before, n, serial);
      AfterSound(cfg, before);
      StepOnward(cfg, After(cfg, before), acts[|acts| - 1], serial);
    }
  }

  ghost predicate EndedAt(cfg: Config, acts: seq<Act>, k: nat, serial: nat)
    requires k <= |acts|
  {
    var j := JobOf(After(cfg, acts[..k]).jobs, serial);
    j.Some? && j.value.status.Terminal()
  }

  /** No submitted job is lost: what has left the dictionary had ended there first. */
  lemma {:induction false} LeftOnlyEnded(cfg: Config, acts: seq<Act>, serial: nat)
    requires serial < After(cfg, acts).nextSerial && JobOf(After(cfg, acts).jobs, serial).None?
    ensures exists k: nat :: k < |acts| && EndedAt(cfg, acts, k, serial)
  {
    hide First, JobOf, Do, Sound;
    var before := acts[..|acts| - 1];
    AfterSound(cfg, before);
    NewIsThere(cfg, After(cfg, before), acts[|acts| - 1], serial);
    StepOnward(cfg, After(cfg, before), acts[|acts| - 1], serial);
    if JobOf(After(cfg, before).jobs, serial).None? {
      LeftOnlyEnded(cfg, before, serial);
      var k: nat :| k < |before| && EndedAt(cfg, before, k, serial);
      assert before[..k] == acts[..k];
      assert EndedAt(cfg, acts, k, serial);
    } else {
      assert EndedAt(cfg, acts, |acts| - 1, serial);
    }
  }

  /** A serial given out by a step belongs to the job that step added. */
  lemma NewIsThere(cfg: Config, r: Runner, act: Act, serial: nat)
    requires Sound(cfg, r) && serial < Do(cfg, r, act).nextSerial
    ensures serial < r.nextSerial || JobOf(Do(cfg, r, act).jobs, serial).Some?
  {
    hide First, QueuedIds, RunningSerials, Staffed, Fits, RemoveFirst, CancelQueued;
    if serial >= r.nextSerial {
      var after := Do(cfg, r, act);
      assert after.jobs[|after.jobs| - 1].serial == serial;
    }
  }

  // ---------------------------------------------------------------- claims and finishes

  ghost predicate HeldAt(cfg: Config, acts: seq<Act>, n: nat, who: Caller, serial: nat)
    requires n <= |acts|
  {
    var e := After(cfg, acts[..n]).executing;
    who in e && e[who] == serial
  }

  /** Step `i` is the claim that gives `who` the job. */
  ghost predicate ClaimsAt(cfg: Config, acts: seq<Act>, i: nat, who: Caller, serial: nat) {
    && i < |acts| && acts[i] == Act.Claim(who)
    && who !in After(cfg, acts[..i]).executing && HeldAt(cfg, acts, i + 1, who, serial)
  }

  /** Step `i` is a finish by `who` of the job it holds. */
  ghost predicate FinishesAt(cfg: Config, acts: seq<Act>, i: nat, who: Caller, serial: nat) {
    i < |acts| && acts[i].Finish? && acts[i].who == who && HeldAt(cfg, acts, i, who, serial)
  }

  /** One step, seen from what the callers hold and from the two histories. */
  lemma StepHeld(cfg: Config, r: Runner, act: Act, who: Caller)
    requires Sound(cfg, r)
    ensures var after := Do(cfg, r, act);
            && r.claimed <= after.claimed && r.finished <= after.finished
            && (who in r.executing ==>
                  if act.Finish? && act.who == who
                  then who !in after.executing && r.executing[who] in after.finished && r.executing[who] !in r.finished
                  else who in after.executing && after.executing[who] == r.executing[who])
            && (who !in r.executing && who in after.executing ==>
                  && act == Act.Claim(who)
                  && after.executing[who] !in r.claimed && after.executing[who] in after.claimed)
  {
    hide First, QueuedIds, RunningSerials, Staffed, Sound, JobOf, RemoveFirst, CancelQueued, Submitted, CancelRequested, Claimed, Finished;
    match act
    case Submit(id) => SubmitFrame(cfg, r, id);
    case Cancel(id) => CancelFrame(cfg, r, id);
    case Claim(c) => ClaimOnward(cfg, r, c, 0);
    case Finish(c, ending) => FinishOnward(cfg, r, c, ending, 0);
    case _ =>
  }

  lemma SubmitFrame(cfg: Config, r: Runner, id: string)
    ensures var after := Submitted(cfg, r, id);
            && after.executing == r.executing && after.claimed == r.claimed && after.finished == r.finished
            && after.active == r.active && after.threads == r.threads && after.started == r.started
  {
    hide First;
  }

  lemma CancelFrame(cfg: Config, r: Runner, id: string)
    ensures var after := CancelRequested(r, id);
            && after.executing == r.executing && after.claimed == r.claimed && after.finished == r.finished
            && after.active == r.active && after.threads == r.threads && after.started == r.started
            && after.nextSerial == r.nextSerial
  {
    hide First;
  }

  lemma {:induction false} HistoriesGrow(cfg: Config, acts: seq<Act>, n: nat)
    requires n <= |acts|
    ensures After(cfg, acts[..n]).claimed <= After(cfg, acts).claimed
    ensures After(cfg, acts[..n]).finished <= After(cfg, acts).finished
  {
    hide Do;
    if n == |acts| {
      assert acts[..n] == acts;
    } else {
      var before := acts[..|acts| - 1];
      assert before[..n] == acts[..n];
      HistoriesGrow(cfg, before, n);
      AfterSound(cfg, before);
      StepHeld(cfg, After(cfg, before), acts[|acts| - 1], Worker(0));
    }
  }

  /** A claimed job runs on, under the caller that claimed it, until that caller finishes it. */
  lemma {:induction false} RunsUntilFinished(cfg: Config, acts: seq<Act>, n: nat, who: Caller, serial: nat)
    requires n <= |acts| && HeldAt(cfg, acts, n, who, serial)
    requires forall k :: n <= k < |acts| ==> !(acts[k].Finish? && acts[k].who == who)
    ensures HeldAt(cfg, acts, |acts|, who, serial)
    ensures JobOf(After(cfg, acts).jobs, serial).Some? && JobOf(After(cfg, acts).jobs, serial).value.status.Running?
  {
    hide Do, First, JobOf;
    assert acts[..|acts|] == acts;
    AfterSound(cfg, acts);
    if n < |acts| {
      var before := acts[..|acts| - 1];
      assert before[..n] == acts[..n] && before[..|before|] == before;
      RunsUntilFinished(cfg, before, n, who, serial);
      AfterSound(cfg, before);
      StepHeld(cfg, After(cfg, before), acts[|acts| - 1], who);
    }
    FinishOnward(cfg, After(cfg, acts), who, Completed, serial);
  }

  /** `who` claimed the job at step `i` and has held it, running, in every state since. */
  ghost predicate HeldSince(cfg: Config, acts: seq<Act>, i: nat, who: Caller, serial: nat) {
    && ClaimsAt(cfg, acts, i, who, serial)
    && forall n: nat :: i < n <= |acts| ==> HeldAt(cfg, acts, n, who, serial) && RunningAt(cfg, acts, n, serial)
  }

  ghost predicate RunningAt(cfg: Config, acts: seq<Act>, n: nat, serial: nat)
    requires n <= |acts|
  {
    var j := JobOf(After(cfg, acts[..n]).jobs, serial);
    j.Some? && j.value.status.Running?
  }

  lemma HeldRuns(cfg: Config, acts: seq<Act>, n: nat, who: Caller, serial: nat)
    requires n <= |acts| && HeldAt(cfg, acts, n, who, serial)
    ensures RunningAt(cfg, acts, n, serial)
  {
    hide Do, First, JobOf;
    AfterSound(cfg, acts[..n]);
    FinishOnward(cfg, After(cfg, acts[..n]), who, Completed, serial);
  }

  lemma HeldSinceExtends(cfg: Config, acts: seq<Act>, i: nat, who: Caller, serial: nat)
    requires acts != [] && HeldSince(cfg, acts[..|acts| - 1], i, who, serial)
    requires HeldAt(cfg, acts, |acts|, who, serial) && RunningAt(cfg, acts, |acts|, serial)
    ensures HeldSince(cfg, acts, i, who, serial)
  {
    hide After, JobOf;
    var before := acts[..|acts| - 1];
    assert before[..i] == acts[..i] && before[..i + 1] == acts[..i + 1];
    forall n: nat | i < n <= |acts| ensures HeldAt(cfg, acts, n, who, serial) && RunningAt(cfg, acts, n, serial) {
      if n < |acts| {
        assert before[..n] == acts[..n] && HeldAt(cfg, before, n, who, serial);
      }
    }
  }

  /** Whoever holds a job claimed it, and the job has been running under it ever since. */
  lemma {:induction false} HeldWasClaimed(cfg: Config, acts: seq<Act>, who: Caller, serial: nat)
    requires HeldAt(cfg, acts, |acts|, who, serial)
    ensures exists i: nat :: HeldSince(cfg, acts, i, who, serial)
  {
    hide Do, HeldSince, RunningAt;
    assert acts[..|acts|] == acts;
    HeldRuns(cfg, acts, |acts|, who, serial);
    if acts != [] {
      var m := |acts| - 1;
      var before := acts[..m];
      assert before[..m] == before;
      AfterSound(cfg, before);
      StepHeld(cfg, After(cfg, before), acts[m], who);
      if who in After(cfg, before).executing {
        HeldWasClaimed(cfg, before, who, serial);
        var i: nat :| HeldSince(cfg, before, i, who, serial);
        HeldSinceExtends(cfg, acts, i, who, serial);
      } else {
        ClaimedJustNow(cfg, acts, who, serial);
      }
    }
  }

  lemma ClaimedJustNow(cfg: Config, acts: seq<Act>, who: Caller, serial: nat)
    requires acts != [] && ClaimsAt(cfg, acts, |acts| - 1, who, serial) && RunningAt(cfg, acts, |acts|, serial)
    ensures HeldSince(cfg, acts, |acts| - 1, who, serial)
  {
    hide After, JobOf;
  }

  /** A finish ends the job its own caller claimed, which was running until that very step. */
  lemma FinishIsOwn(cfg: Config, acts: seq<Act>, k: nat, who: Caller, serial: nat)
    requires FinishesAt(cfg, acts, k, who, serial)
    ensures exists i: nat :: HeldSince(cfg, acts[..k], i, who, serial)
    ensures RunningAt(cfg, acts, k, serial)
    ensures JobOf(After(cfg, acts[..k + 1]).jobs, serial) ==
            Some(JobOf(After(cfg, acts[..k]).jobs, serial).value.(status := acts[k].ending))
  {
    hide First, JobOf, HeldSince, Finished;
    HeldRuns(cfg, acts, k, who, serial);
    assert acts[..k][..k] == acts[..k];
    HeldWasClaimed(cfg, acts[..k], who, serial);
    NextState(cfg, acts, k);
    AfterSound(cfg, acts[..k]);
    FinishOnward(cfg, After(cfg, acts[..k]), who, acts[k].ending, serial);
  }

  /** No job is finished twice, by whomever. */
  lemma FinishedOnce(cfg: Config, acts: seq<Act>, i: nat, k: nat, who: Caller, other: Caller, serial: nat)
    requires i < k && FinishesAt(cfg, acts, i, who, serial)
    ensures !FinishesAt(cfg, acts, k, other, serial)
  {
    hide Do;
    if FinishesAt(cfg, acts, k, other, serial) {
      NextState(cfg, acts, i);
      AfterSound(cfg, acts[..i]);
      StepHeld(cfg, After(cfg, acts[..i]), acts[i], who);
      assert acts[..k][..i + 1] == acts[..i + 1];
      HistoriesGrow(cfg, acts[..k], i + 1);
      AfterSound(cfg, acts[..k]);
      StepHeld(cfg, After(cfg, acts[..k]), acts[k], other);
    }
  }

  /** What is still queued was submitted after everything claimed so far. */
  ghost predicate Ordered(r: Runner) {
    forall k, c :: 0 <= k < |r.jobs| && r.jobs[k].status.Queued? && c in r.claimed ==> c < r.jobs[k].serial
  }

  lemma StepOrdered(cfg: Config, r: Runner, act: Act)
    requires Sound(cfg, r) && Ordered(r)
    ensures Ordered(Do(cfg, r, act))
    ensures forall who :: who !in r.executing && who in Do(cfg, r, act).executing ==>
              forall c :: c in r.claimed ==> c < Do(cfg, r, act).executing[who]
  {
    hide First, Sound, CancelQueued, Submitted, CancelRequested, Claimed, Finished;
    match act
    case Submit(id) => SubmitOrdered(cfg, r, id); SubmitFrame(cfg, r, id);
    case Cancel(id) => CancelOrdered(r, id); CancelFrame(cfg, r, id);
    case Claim(who) => ClaimOrdered(cfg, r, who);
    case Finish(who, ending) => FinishOrdered(cfg, r, who, ending); FinishOnward(cfg, r, who, ending, 0);
    case _ =>
  }

  lemma SubmitOrdered(cfg: Config, r: Runner, id: string)
    requires Sound(cfg, r) && Ordered(r)
    ensures Ordered(Submitted(cfg, r, id))
  {
    hide First, QueuedIds, RunningSerials, Staffed, Fits;
  }

  lemma CancelOrdered(r: Runner, id: string)
    requires Ordered(r)
    ensures Ordered(CancelRequested(r, id))
  {
    hide First, RemoveFirst;
  }

  lemma FinishOrdered(cfg: Config, r: Runner, who: Caller, ending: Ending)
    requires Ordered(r)
    ensures Ordered(Finished(r, who, ending))
  {
    hide First;
  }

  lemma ClaimOrdered(cfg: Config, r: Runner, who: Caller)
    requires Sound(cfg, r) && Ordered(r)
    ensures Ordered(Claimed(r, who))
    ensures forall c, w :: w !in r.executing && w in Claimed(r, who).executing && c in r.claimed ==>
              c < Claimed(r, who).executing[w]
  {
    hide First, QueuedIds, RunningSerials, Staffed, Fits;
    ClaimOnward(cfg, r, who, 0);
    if Claimed(r, who) != r {
      var i: nat :| i < |r.jobs| && TakesHead(cfg, r, who, i) && Claimed(r, who) == Taken(r, who, i);
      ViewEmpty(r.jobs[..i]);
      assert forall k :: 0 <= k < i ==> r.jobs[k] == r.jobs[..i][k];
    }
  }

  lemma {:induction false} AfterOrdered(cfg: Config, acts: seq<Act>)
    ensures Ordered(After(cfg, acts))
  {
    hide Do;
    if acts != [] {
      AfterOrdered(cfg, acts[..|acts| - 1]);
      AfterSound(cfg, acts[..|acts| - 1]);
      StepOrdered(cfg, After(cfg, acts[..|acts| - 1]), acts[|acts| - 1]);
    }
  }

  /** Jobs are claimed in the order of their submission, so none is claimed twice. */
  lemma ClaimsInOrder(cfg: Config, acts: seq<Act>, i: nat, k: nat, who: Caller, other: Caller, first: nat, second: nat)
    requires i < k && ClaimsAt(cfg, acts, i, who, first) && ClaimsAt(cfg, acts, k, other, second)
    ensures first < second
  {
    hide Do, Ordered;
    NextState(cfg, acts, i);
    AfterSound(cfg, acts[..i]);
    StepHeld(cfg, After(cfg, acts[..i]), acts[i], who);
    assert acts[..k][..i + 1] == acts[..i + 1];
    HistoriesGrow(cfg, acts[..k], i + 1);
    NextState(cfg, acts, k);
    AfterSound(cfg, acts[..k]);
    AfterOrdered(cfg, acts[..k]);
    StepOrdered(cfg, After(cfg, acts[..k]), acts[k]);
  }
}
