/**
 The in-memory job runner of one process. Every public call and every worker step is one
 block under the runner's condition lock, so a run is a sequence of `Act`s in any order.
 */
module LocalRunner {
  import opened Common

  datatype Status = Queued | Running | Completed | Published | Failed | Cancelled {
    predicate Terminal() {
      Completed? || Published? || Failed? || Cancelled?
    }
  }

  /** How a task can end: by its outcome, by a cancellation it honoured, or by an exception. */
  type Ending = s: Status | s.Terminal() witness Completed

  /** `serial` tells apart jobs that reuse the id of an evicted one. */
  datatype Job = Job(id: string, serial: nat, status: Status, started: bool, cancelRequested: bool)

  datatype Rejection = RunnerClosed | DuplicateId | QueueFull | HistoryFull

  const MAX_WORKERS := 64
  const MAX_JOBS := 100_000

  datatype Config = Config(maxPending: nat, maxWorkers: nat, maxRetained: nat) {
    predicate Allowed() {
      1 <= maxPending <= MAX_JOBS && 1 <= maxWorkers <= MAX_WORKERS && 1 <= maxRetained <= MAX_JOBS
    }
  }

  /** Who takes a job off the deque: one of the runner's threads, or a call of `run_next`. */
  datatype Caller = Worker(slot: nat) | Synchronous(call: nat)

  /**
   `executing` is what each thread and each `run_next` call holds in its local variable
   between its claim and its finish. `claimed` and `finished` record serials, for the proofs.
   */
  datatype Runner = Runner(
    jobs: seq<Job>, pending: seq<string>, active: nat, started: bool, closing: bool, threads: nat,
    nextSerial: nat, executing: map<Caller, nat>, claimed: set<nat>, finished: set<nat>)

  const FRESH := Runner([], [], 0, false, false, 0, 0, map[], {}, {})

  /** `start` is two blocks: the flag first, and the threads after its event was emitted. */
  datatype Act =
    | Start
    | Launch
    | Submit(id: string)
    | Cancel(id: string)
    | Claim(who: Caller)
    | Finish(who: Caller, ending: Ending)
    | Shutdown(cancelPending: bool)

  // ---------------------------------------------------------------- the steps

  datatype Query = ById(id: string) | BySerial(serial: nat) | ByTerminal {
    predicate Holds(j: Job) {
      match this
      case ById(id) => j.id == id
      case BySerial(serial) => j.serial == serial
      case ByTerminal => j.status.Terminal()
    }
  }

  /** The first job of the dictionary that answers the query. */
  function First(jobs: seq<Job>, q: Query): (at: Option<nat>)
    ensures at.Some? ==> at.value < |jobs| && q.Holds(jobs[at.value])
    ensures at.Some? ==> forall k :: 0 <= k < at.value ==> !q.Holds(jobs[k])
    ensures at.None? ==> forall k :: 0 <= k < |jobs| ==> !q.Holds(jobs[k])
  {
    if jobs == [] then None
    else if q.Holds(jobs[0]) then Some(0)
    else
      match First(jobs[1..], q)
      case Some(k) => Some(k + 1)
      case None => None
  }

  function RemoveFirst(ids: seq<string>, id: string): seq<string> {
    if ids == [] then []
    else if ids[0] == id then ids[1..]
    else [ids[0]] + RemoveFirst(ids[1..], id)
  }

  function CancelQueued(jobs: seq<Job>): (cancelled: seq<Job>)
    ensures |cancelled| == |jobs|
    ensures forall k :: 0 <= k < |jobs| ==>
              cancelled[k] == if jobs[k].status.Queued? then jobs[k].(status := Cancelled) else jobs[k]
  {
    seq(|jobs|, k requires 0 <= k < |jobs| =>
      if jobs[k].status.Queued? then jobs[k].(status := Cancelled) else jobs[k])
  }

  function Without(jobs: seq<Job>, i: nat): seq<Job>
    requires i < |jobs|
  {
    jobs[..i] + jobs[i + 1..]
  }

  function Fresh(id: string, serial: nat): Job {
    Job(id, serial, Queued, false, false)
  }

  function Admitted(r: Runner, kept: seq<Job>, id: string): Runner {
    r.(jobs := kept + [Fresh(id, r.nextSerial)], pending := r.pending + [id], nextSerial := r.nextSerial + 1)
  }

  function Submitted(cfg: Config, r: Runner, id: string): Runner {
    if r.closing || First(r.jobs, ById(id)).Some? || |r.pending| >= cfg.maxPending then r
    else if |r.jobs| < cfg.maxRetained then Admitted(r, r.jobs, id)
    else
      match First(r.jobs, ByTerminal)
      case None => r
      case Some(i) => Admitted(r, Without(r.jobs, i), id)
  }

  function WithJob(r: Runner, i: nat, j: Job): Runner
    requires i < |r.jobs|
  {
    r.(jobs := r.jobs[i := j])
  }

  function CancelRequested(r: Runner, id: string): Runner {
    match First(r.jobs, ById(id))
    case None => r
    case Some(i) =>
      if r.jobs[i].status.Terminal() then r
      else if r.jobs[i].status.Queued? then
        WithJob(r, i, r.jobs[i].(status := Cancelled)).(pending := RemoveFirst(r.pending, id))
      else WithJob(r, i, r.jobs[i].(cancelRequested := true))
  }

  /** A thread claims only once it was launched, and nobody claims while executing. */
  predicate MayClaim(r: Runner, who: Caller) {
    who !in r.executing && (who.Worker? ==> who.slot < r.threads)
  }

  function Taken(r: Runner, who: Caller, i: nat): Runner
    requires i < |r.jobs| && r.pending != []
  {
    WithJob(r, i, r.jobs[i].(status := Running, started := true))
      .(pending := r.pending[1..], active := r.active + 1,
        executing := r.executing[who := r.jobs[i].serial], claimed := r.claimed + {r.jobs[i].serial})
  }

  function Claimed(r: Runner, who: Caller): Runner {
    if !MayClaim(r, who) || r.pending == [] then r
    else
      match First(r.jobs, ById(r.pending[0]))
      case Some(i) => if r.jobs[i].status.Queued? then Taken(r, who, i) else r
      case None => r
  }

  function Ended(r: Runner, who: Caller, i: nat, ending: Ending): Runner
    requires i < |r.jobs|
  {
    WithJob(r, i, r.jobs[i].(status := ending))
      .(active := if r.active != 0 && r.jobs[i].started then r.active - 1 else r.active,
        executing := r.executing - {who}, finished := r.finished + {r.jobs[i].serial})
  }

  function Finished(r: Runner, who: Caller, ending: Ending): Runner {
    if who !in r.executing then r
    else
      match First(r.jobs, BySerial(r.executing[who]))
      case Some(i) => Ended(r, who, i, ending)
      case None => r
  }

  function ShutDown(r: Runner, cancelPending: bool): Runner {
    if r.closing then r
    else if cancelPending || !r.started then r.(closing := true, jobs := CancelQueued(r.jobs), pending := [])
    else r.(closing := true)
  }

  function Do(cfg: Config, r: Runner, act: Act): Runner {
    match act
    case Start => if r.closing then r else r.(started := true)
    case Launch => if r.closing || !r.started then r else r.(threads := cfg.maxWorkers)
    case Submit(id) => Submitted(cfg, r, id)
    case Cancel(id) => CancelRequested(r, id)
    case Claim(who) => Claimed(r, who)
    case Finish(who, ending) => Finished(r, who, ending)
    case Shutdown(cancelPending) => ShutDown(r, cancelPending)
  }

  // ---------------------------------------------------------------- views of the job dictionary

  function One(j: Job): seq<string> {
    if j.status.Queued? then [j.id] else []
  }

  function OneRunning(j: Job): seq<nat> {
    if j.status.Running? then [j.serial] else []
  }

  /** Ids of queued jobs, in submission order. */
  function QueuedIds(jobs: seq<Job>): seq<string> {
    if jobs == [] then []
    else
      QueuedIds(jobs[..|jobs| - 1]) + One(jobs[|jobs| - 1])
  }

  /** Serials of running jobs. */
  function RunningSerials(jobs: seq<Job>): seq<nat> {
    if jobs == [] then []
    else
      RunningSerials(jobs[..|jobs| - 1]) + OneRunning(jobs[|jobs| - 1])
  }

  predicate Distinct(jobs: seq<Job>) {
    forall i, k :: 0 <= i < k < |jobs| ==> jobs[i].id != jobs[k].id && jobs[i].serial < jobs[k].serial
  }

  lemma Associates<T>(a: seq<T>, b: seq<T>, c: seq<T>)
    ensures (a + b) + c == a + (b + c)
  {}

  lemma {:induction false} ViewsConcat(a: seq<Job>, b: seq<Job>)
    ensures QueuedIds(a + b) == QueuedIds(a) + QueuedIds(b)
    ensures RunningSerials(a + b) == RunningSerials(a) + RunningSerials(b)
  {
    hide One, OneRunning;
    if b == [] {
      assert a + b == a;
    } else {
      var n := |b| - 1;
      ViewsConcat(a, b[..n]);
      assert (a + b)[..|a + b| - 1] == a + b[..n] && (a + b)[|a + b| - 1] == b[n];
      Associates(QueuedIds(a), QueuedIds(b[..n]), One(b[n]));
      Associates(RunningSerials(a), RunningSerials(b[..n]), OneRunning(b[n]));
    }
  }

  lemma ViewsOne(j: Job)
    ensures QueuedIds([j]) == One(j) && RunningSerials([j]) == OneRunning(j)
  {
    assert [j][..0] == [];
    assert QueuedIds([]) == [] && RunningSerials([]) == [];
  }

  lemma SplitAt(jobs: seq<Job>, i: nat)
    requires i < |jobs|
    ensures jobs == jobs[..i] + [jobs[i]] + jobs[i + 1..]
  {}

  lemma ViewsAt(jobs: seq<Job>, i: nat)
    requires i < |jobs|
    ensures QueuedIds(jobs) == QueuedIds(jobs[..i]) + One(jobs[i]) + QueuedIds(jobs[i + 1..])
    ensures RunningSerials(jobs) == RunningSerials(jobs[..i]) + OneRunning(jobs[i]) + RunningSerials(jobs[i + 1..])
  {
    hide QueuedIds, RunningSerials, One, OneRunning;
    var a, x, b := jobs[..i], [jobs[i]], jobs[i + 1..];
    SplitAt(jobs, i);
    ViewsConcat(a + x, b);
    ViewsConcat(a, x);
    ViewsOne(jobs[i]);
  }

  /** Both views after one job changed its status. */
  lemma ViewsUpdate(jobs: seq<Job>, i: nat, j: Job)
    requires i < |jobs|
    ensures QueuedIds(jobs[i := j]) == QueuedIds(jobs[..i]) + One(j) + QueuedIds(jobs[i + 1..])
    ensures RunningSerials(jobs[i := j]) == RunningSerials(jobs[..i]) + OneRunning(j) + RunningSerials(jobs[i + 1..])
  {
    ViewsAt(jobs[i := j], i);
    assert jobs[i := j][..i] == jobs[..i] && jobs[i := j][i + 1..] == jobs[i + 1..];
  }

  /** Both views after one job left the dictionary. */
  lemma ViewsRemove(jobs: seq<Job>, i: nat)
    requires i < |jobs|
    ensures QueuedIds(jobs[..i] + jobs[i + 1..]) == QueuedIds(jobs[..i]) + QueuedIds(jobs[i + 1..])
    ensures RunningSerials(jobs[..i] + jobs[i + 1..]) == RunningSerials(jobs[..i]) + RunningSerials(jobs[i + 1..])
  {
    ViewsConcat(jobs[..i], jobs[i + 1..]);
  }

  lemma {:induction false} QueuedAreJobs(jobs: seq<Job>, id: string)
    ensures id in QueuedIds(jobs) <==> exists i :: 0 <= i < |jobs| && jobs[i].id == id && jobs[i].status.Queued?
  {
    if jobs != [] {
      var n := |jobs| - 1;
      QueuedAreJobs(jobs[..n], id);
      if exists i :: 0 <= i < |jobs| && jobs[i].id == id && jobs[i].status.Queued? {
        var i :| 0 <= i < |jobs| && jobs[i].id == id && jobs[i].status.Queued?;
        assert i < n ==> jobs[..n][i] == jobs[i];
      }
    }
  }

  lemma {:induction false} RunningAreJobs(jobs: seq<Job>, serial: nat)
    ensures serial in RunningSerials(jobs) <==>
              exists i :: 0 <= i < |jobs| && jobs[i].serial == serial && jobs[i].status.Running?
  {
    if jobs != [] {
      var n := |jobs| - 1;
      RunningAreJobs(jobs[..n], serial);
      if exists i :: 0 <= i < |jobs| && jobs[i].serial == serial && jobs[i].status.Running? {
        var i :| 0 <= i < |jobs| && jobs[i].serial == serial && jobs[i].status.Running?;
        assert i < n ==> jobs[..n][i] == jobs[i];
      }
    }
  }

  /** The queue holds no id twice. */
  lemma {:induction false} QueuedOnce(jobs: seq<Job>)
    requires Distinct(jobs)
    ensures forall i, k :: 0 <= i < k < |QueuedIds(jobs)| ==> QueuedIds(jobs)[i] != QueuedIds(jobs)[k]
  {
    if jobs != [] {
      var n := |jobs| - 1;
      QueuedOnce(jobs[..n]);
      QueuedAreJobs(jobs[..n], jobs[n].id);
    }
  }

  /** A job's status against the histories of claims and finishes. */
  ghost predicate Fits(j: Job, claimed: set<nat>, finished: set<nat>) {
    && (j.status.Queued? ==> !j.started && j.serial !in claimed)
    && (j.status.Running? ==> j.started && j.serial in claimed && j.serial !in finished)
    && (j.started && j.status.Terminal() ==> j.serial in finished)
  }

  ghost predicate Books(jobs: seq<Job>, nextSerial: nat, claimed: set<nat>, finished: set<nat>) {
    && Distinct(jobs)
    && (forall i :: 0 <= i < |jobs| ==> jobs[i].serial < nextSerial && Fits(jobs[i], claimed, finished))
    && finished <= claimed && (forall s :: s in claimed ==> s < nextSerial)
  }

  lemma BooksRemove(jobs: seq<Job>, i: nat, nextSerial: nat, claimed: set<nat>, finished: set<nat>)
    requires Books(jobs, nextSerial, claimed, finished) && i < |jobs|
    ensures Books(jobs[..i] + jobs[i + 1..], nextSerial, claimed, finished)
  {
    hide Fits;
  }

  lemma BooksPush(jobs: seq<Job>, id: string, nextSerial: nat, claimed: set<nat>, finished: set<nat>)
    requires Books(jobs, nextSerial, claimed, finished)
    requires forall i :: 0 <= i < |jobs| ==> jobs[i].id != id
    ensures Books(jobs + [Job(id, nextSerial, Queued, false, false)], nextSerial + 1, claimed, finished)
  {
    var j := Job(id, nextSerial, Queued, false, false);
    assert Fits(j, claimed, finished);
    hide Fits;
  }

  /** One job changed status; the histories may have gained its serial. */
  lemma BooksUpdate(
      jobs: seq<Job>, i: nat, j: Job, nextSerial: nat,
      claimed: set<nat>, finished: set<nat>, claimed': set<nat>, finished': set<nat>)
    requires Books(jobs, nextSerial, claimed, finished) && i < |jobs|
    requires j.id == jobs[i].id && j.serial == jobs[i].serial && Fits(j, claimed', finished')
    requires claimed' == claimed || claimed' == claimed + {j.serial}
    requires finished' == finished || (finished' == finished + {j.serial} && j.serial in claimed')
    ensures Books(jobs[i := j], nextSerial, claimed', finished')
  {
    forall k | 0 <= k < |jobs| && k != i ensures Fits(jobs[k], claimed', finished') {
      assert Fits(jobs[k], claimed, finished) && jobs[k].serial != j.serial;
    }
    hide Fits;
  }

  /** What was never claimed was never finished. */
  lemma BooksNotDone(jobs: seq<Job>, i: nat, nextSerial: nat, claimed: set<nat>, finished: set<nat>)
    requires Books(jobs, nextSerial, claimed, finished) && i < |jobs| && jobs[i].status.Queued?
    ensures jobs[i].serial !in claimed && jobs[i].serial !in finished
  {
    assert Fits(jobs[i], claimed, finished);
  }

  lemma BooksAt(jobs: seq<Job>, i: nat, nextSerial: nat, claimed: set<nat>, finished: set<nat>)
    requires Books(jobs, nextSerial, claimed, finished) && i < |jobs|
    ensures Fits(jobs[i], claimed, finished) && Distinct(jobs)
  {
    hide Fits;
  }

  lemma ViewsPush(jobs: seq<Job>, j: Job)
    ensures QueuedIds(jobs + [j]) == QueuedIds(jobs) + One(j)
    ensures RunningSerials(jobs + [j]) == RunningSerials(jobs) + OneRunning(j)
  {
    assert (jobs + [j])[..|jobs|] == jobs;
  }

  lemma {:induction false} NoneQueued(jobs: seq<Job>)
    requires forall k :: 0 <= k < |jobs| ==> !jobs[k].status.Queued?
    ensures QueuedIds(jobs) == []
  {
    if jobs != [] {
      NoneQueued(jobs[..|jobs| - 1]);
    }
  }

  /** An empty view has no queued job behind it. */
  lemma ViewEmpty(jobs: seq<Job>)
    requires QueuedIds(jobs) == []
    ensures forall k :: 0 <= k < |jobs| ==> !jobs[k].status.Queued?
  {
    forall k | 0 <= k < |jobs| ensures !jobs[k].status.Queued? {
      QueuedAreJobs(jobs, jobs[k].id);
    }
  }

  lemma {:induction false} ViewsOfCancelled(jobs: seq<Job>)
    ensures QueuedIds(CancelQueued(jobs)) == []
    ensures RunningSerials(CancelQueued(jobs)) == RunningSerials(jobs)
  {
    NoneQueued(CancelQueued(jobs));
    if jobs != [] {
      var n := |jobs| - 1;
      ViewsOfCancelled(jobs[..n]);
      assert CancelQueued(jobs)[..n] == CancelQueued(jobs[..n]);
    }
  }

  lemma {:induction false} RemoveFirstAt(a: seq<string>, id: string, b: seq<string>)
    requires id !in a
    ensures RemoveFirst(a + [id] + b, id) == a + b
  {
    if a == [] {
      assert a + [id] + b == [id] + b && a + b == b;
    } else {
      RemoveFirstAt(a[1..], id, b);
      assert (a + [id] + b)[1..] == a[1..] + [id] + b;
      assert [a[0]] + (a[1..] + b) == a + b;
    }
  }

  // ---------------------------------------------------------------- what every step keeps

  /** Each running job is executed by exactly one caller, and each caller executes one. */
  ghost predicate Held(executing: map<Caller, nat>, serial: nat) {
    exists c :: c in executing && executing[c] == serial
  }

  ghost predicate Staffed(executing: map<Caller, nat>, running: seq<nat>, threads: nat) {
    && (forall c :: c in executing ==> executing[c] in running)
    && (forall s :: s in running ==> Held(executing, s))
    && (forall c, d :: c in executing && d in executing && executing[c] == executing[d] ==> c == d)
    && (forall c :: c in executing && c.Worker? ==> c.slot < threads)
  }

  ghost predicate Sound(cfg: Config, r: Runner) {
    && Books(r.jobs, r.nextSerial, r.claimed, r.finished)
    && r.pending == QueuedIds(r.jobs)
    && Staffed(r.executing, RunningSerials(r.jobs), r.threads)
    && r.active == |RunningSerials(r.jobs)| == |r.executing|
    && |r.pending| <= cfg.maxPending && |r.jobs| <= cfg.maxRetained
    && (r.threads == 0 || (r.started && r.threads == cfg.maxWorkers))
  }

  /** Dropping a terminal job changes neither view. */
  lemma EvictKeeps(cfg: Config, r: Runner, i: nat)
    requires Sound(cfg, r) && i < |r.jobs| && r.jobs[i].status.Terminal()
    ensures Sound(cfg, r.(jobs := Without(r.jobs, i)))
  {
    hide QueuedIds, RunningSerials, Books, Staffed;
    ViewsAt(r.jobs, i);
    ViewsRemove(r.jobs, i);
    BooksRemove(r.jobs, i, r.nextSerial, r.claimed, r.finished);
    assert QueuedIds(r.jobs) == QueuedIds(Without(r.jobs, i));
    assert RunningSerials(r.jobs) == RunningSerials(Without(r.jobs, i));
  }

  lemma AdmitKeeps(cfg: Config, r: Runner, id: string)
    requires Sound(cfg, r) && |r.jobs| < cfg.maxRetained && |r.pending| < cfg.maxPending
    requires forall i :: 0 <= i < |r.jobs| ==> r.jobs[i].id != id
    ensures Sound(cfg, Admitted(r, r.jobs, id))
  {
    hide QueuedIds, RunningSerials, Books, Staffed;
    ViewsPush(r.jobs, Fresh(id, r.nextSerial));
    BooksPush(r.jobs, id, r.nextSerial, r.claimed, r.finished);
    assert RunningSerials(r.jobs) + [] == RunningSerials(r.jobs);
  }

  lemma SubmitKeeps(cfg: Config, r: Runner, id: string)
    requires Sound(cfg, r)
    ensures Sound(cfg, Submitted(cfg, r, id))
  {
    hide QueuedIds, RunningSerials, Books, Staffed, First;
    if Submitted(cfg, r, id) != r {
      if |r.jobs| < cfg.maxRetained {
        AdmitKeeps(cfg, r, id);
      } else {
        var i := First(r.jobs, ByTerminal).value;
        EvictKeeps(cfg, r, i);
        AdmitKeeps(cfg, r.(jobs := Without(r.jobs, i)), id);
      }
    }
  }

  /** A queued job's id stands in the deque where the queued jobs before it end. */
  lemma QueuedSplit(cfg: Config, r: Runner, i: nat)
    requires Sound(cfg, r) && i < |r.jobs| && r.jobs[i].status.Queued?
    ensures r.pending == QueuedIds(r.jobs[..i]) + [r.jobs[i].id] + QueuedIds(r.jobs[i + 1..])
    ensures r.jobs[i].id !in QueuedIds(r.jobs[..i])
  {
    hide QueuedIds, RunningSerials, Books, Staffed;
    BooksAt(r.jobs, i, r.nextSerial, r.claimed, r.finished);
    ViewsAt(r.jobs, i);
    QueuedAreJobs(r.jobs[..i], r.jobs[i].id);
  }

  lemma CancelKeeps(cfg: Config, r: Runner, id: string)
    requires Sound(cfg, r)
    ensures Sound(cfg, CancelRequested(r, id))
  {
    hide QueuedIds, RunningSerials, Books, Staffed, First, RemoveFirst;
    var at := First(r.jobs, ById(id));
    if at.Some? && !r.jobs[at.value].status.Terminal() {
      var i := at.value;
      var j := if r.jobs[i].status.Queued? then r.jobs[i].(status := Cancelled) else r.jobs[i].(cancelRequested := true);
      BooksAt(r.jobs, i, r.nextSerial, r.claimed, r.finished);
      BooksUpdate(r.jobs, i, j, r.nextSerial, r.claimed, r.finished, r.claimed, r.finished);
      ViewsAt(r.jobs, i);
      ViewsUpdate(r.jobs, i, j);
      if r.jobs[i].status.Queued? {
        QueuedSplit(cfg, r, i);
        RemoveFirstAt(QueuedIds(r.jobs[..i]), id, QueuedIds(r.jobs[i + 1..]));
      }
    }
  }

  /** The head of the deque is the first queued job of the dictionary. */
  lemma HeadIsFirst(cfg: Config, r: Runner)
    requires Sound(cfg, r) && r.pending != []
    ensures var at := First(r.jobs, ById(r.pending[0]));
            && at.Some? && r.jobs[at.value].status.Queued?
            && QueuedIds(r.jobs[..at.value]) == []
  {
    hide QueuedIds, RunningSerials, Staffed, Fits, First;
    QueuedAreJobs(r.jobs, r.pending[0]);
    var i := First(r.jobs, ById(r.pending[0])).value;
    QueuedSplit(cfg, r, i);
    QueuedOnce(r.jobs);
    var a := QueuedIds(r.jobs[..i]);
    assert r.pending[|a|] == r.pending[0];
  }

  lemma StaffedTaken(executing: map<Caller, nat>, a: seq<nat>, b: seq<nat>, threads: nat, who: Caller, s: nat)
    requires Staffed(executing, a + b, threads) && who !in executing && s !in a + b
    requires who.Worker? ==> who.slot < threads
    ensures Staffed(executing[who := s], a + [s] + b, threads)
    ensures |executing[who := s]| == |executing| + 1
  {
    var e := executing[who := s];
    forall t | t in a + [s] + b ensures Held(e, t) {
      if t != s {
        assert t in a + b && Held(executing, t);
        var c :| c in executing && executing[c] == t;
        assert c in e && e[c] == t;
      } else {
        assert who in e && e[who] == t;
      }
    }
    assert e.Keys == executing.Keys + {who};
  }

  lemma StaffedEnded(executing: map<Caller, nat>, a: seq<nat>, b: seq<nat>, threads: nat, who: Caller, s: nat)
    requires who in executing && executing[who] == s
    requires Staffed(executing, a + [s] + b, threads) && s !in a + b
    ensures Staffed(executing - {who}, a + b, threads)
    ensures |executing - {who}| == |executing| - 1
  {
    var e := executing - {who};
    forall t | t in a + b ensures Held(e, t) {
      assert t in a + [s] + b && Held(executing, t);
      var c :| c in executing && executing[c] == t;
      assert c in e && e[c] == t;
    }
    assert e.Keys == executing.Keys - {who};
  }

  /** A job's serial is not the serial of a running job elsewhere in the dictionary. */
  lemma RunningElsewhere(jobs: seq<Job>, i: nat)
    requires Distinct(jobs) && i < |jobs|
    ensures jobs[i].serial !in RunningSerials(jobs[..i]) + RunningSerials(jobs[i + 1..])
  {
    RunningAreJobs(jobs[..i], jobs[i].serial);
    RunningAreJobs(jobs[i + 1..], jobs[i].serial);
  }

  lemma ClaimKeeps(cfg: Config, r: Runner, who: Caller)
    requires Sound(cfg, r)
    ensures Sound(cfg, Claimed(r, who))
  {
    if MayClaim(r, who) && r.pending != [] {
      HeadIsFirst(cfg, r);
      var i := First(r.jobs, ById(r.pending[0])).value;
      TakenKeeps(cfg, r, who, i);
    }
  }

  lemma TakenKeeps(cfg: Config, r: Runner, who: Caller, i: nat)
    requires Sound(cfg, r) && MayClaim(r, who) && r.pending != []
    requires i < |r.jobs| && r.jobs[i].status.Queued? && QueuedIds(r.jobs[..i]) == []
    ensures Sound(cfg, Taken(r, who, i)) && r.jobs[i].serial !in r.claimed
  {
    hide QueuedIds, RunningSerials, Books, Staffed, First;
    var j := r.jobs[i].(status := Running, started := true);
    BooksAt(r.jobs, i, r.nextSerial, r.claimed, r.finished);
    BooksNotDone(r.jobs, i, r.nextSerial, r.claimed, r.finished);
    BooksUpdate(r.jobs, i, j, r.nextSerial, r.claimed, r.finished, r.claimed + {j.serial}, r.finished);
    ViewsAt(r.jobs, i);
    ViewsUpdate(r.jobs, i, j);
    var a, b := RunningSerials(r.jobs[..i]), RunningSerials(r.jobs[i + 1..]);
    RunningElsewhere(r.jobs, i);
    assert a + [] + b == a + b;
    StaffedTaken(r.executing, a, b, r.threads, who, j.serial);
  }

  /** The caller that finishes holds a running job of the dictionary, not finished before. */
  lemma HeldIsRunning(cfg: Config, r: Runner, who: Caller)
    requires Sound(cfg, r) && who in r.executing
    ensures var at := First(r.jobs, BySerial(r.executing[who]));
            && at.Some? && r.jobs[at.value].status.Running? && r.jobs[at.value].started && r.active != 0
    ensures r.executing[who] in r.claimed && r.executing[who] !in r.finished
  {
    hide QueuedIds, RunningSerials, First;
    RunningAreJobs(r.jobs, r.executing[who]);
  }

  lemma FinishKeeps(cfg: Config, r: Runner, who: Caller, ending: Ending)
    requires Sound(cfg, r)
    ensures Sound(cfg, Finished(r, who, ending))
  {
    if who in r.executing {
      HeldIsRunning(cfg, r, who);
      var i := First(r.jobs, BySerial(r.executing[who])).value;
      EndedKeeps(cfg, r, who, i, ending);
    }
  }

  lemma EndedKeeps(cfg: Config, r: Runner, who: Caller, i: nat, ending: Ending)
    requires Sound(cfg, r) && who in r.executing && i < |r.jobs|
    requires r.jobs[i].serial == r.executing[who] && r.jobs[i].status.Running?
    ensures Sound(cfg, Ended(r, who, i, ending))
  {
    hide QueuedIds, RunningSerials, Books, Staffed, First;
    var j := r.jobs[i].(status := ending);
    BooksAt(r.jobs, i, r.nextSerial, r.claimed, r.finished);
    BooksUpdate(r.jobs, i, j, r.nextSerial, r.claimed, r.finished, r.claimed, r.finished + {j.serial});
    ViewsAt(r.jobs, i);
    ViewsUpdate(r.jobs, i, j);
    var a, b := RunningSerials(r.jobs[..i]), RunningSerials(r.jobs[i + 1..]);
    RunningElsewhere(r.jobs, i);
    assert a + [] + b == a + b;
    StaffedEnded(r.executing, a, b, r.threads, who, j.serial);
  }

  lemma LaunchKeeps(cfg: Config, r: Runner)
    requires Sound(cfg, r)
    ensures Sound(cfg, Do(cfg, r, Launch))
  {
    hide QueuedIds, RunningSerials, Books;
  }

  lemma BooksCancelled(jobs: seq<Job>, nextSerial: nat, claimed: set<nat>, finished: set<nat>)
    requires Books(jobs, nextSerial, claimed, finished)
    ensures Books(CancelQueued(jobs), nextSerial, claimed, finished)
  {
    var after := CancelQueued(jobs);
    forall k | 0 <= k < |jobs|
      ensures after[k].id == jobs[k].id && after[k].serial == jobs[k].serial && Fits(after[k], claimed, finished)
    {
      assert Fits(jobs[k], claimed, finished);
    }
    hide Fits, CancelQueued;
  }

  /** Every step, by anyone, keeps the invariant. */
  lemma DoKeeps(cfg: Config, r: Runner, act: Act)
    requires Sound(cfg, r)
    ensures Sound(cfg, Do(cfg, r, act))
  {
    hide QueuedIds, RunningSerials, Books, Staffed, Submitted, CancelRequested, Claimed, Finished;
    match act
    case Start =>
    case Launch => LaunchKeeps(cfg, r);
    case Submit(id) => SubmitKeeps(cfg, r, id);
    case Cancel(id) => CancelKeeps(cfg, r, id);
    case Claim(who) => ClaimKeeps(cfg, r, who);
    case Finish(who, ending) => FinishKeeps(cfg, r, who, ending);
    case Shutdown(cancelPending) =>
      ViewsOfCancelled(r.jobs);
      BooksCancelled(r.jobs, r.nextSerial, r.claimed, r.finished);
  }

  // ---------------------------------------------------------------- the class

  class LocalJobRunner {
    const cfg: Config
    /** The job dictionary, in insertion order. */
    var jobs: seq<Job>
    var pending: seq<string>
    var active: nat
    var started: bool
    var closing: bool
    var threads: nat
    var nextSerial: nat
    /** The claimed job each thread and each `run_next` call holds in a local variable. */
    var executing: map<Caller, nat>
    /** Serials ever claimed, and serials ever finished by their caller. */
    ghost var claimed: set<nat>
    ghost var finished: set<nat>

    ghost function State(): Runner
      reads this
    {
      Runner(jobs, pending, active, started, closing, threads, nextSerial, executing, claimed, finished)
    }

    ghost predicate Valid()
      reads this
    {
      Sound(cfg, State())
    }

    constructor (cfg: Config)
      requires cfg.Allowed()
      ensures Valid() && this.cfg == cfg && State() == FRESH
    {
      this.cfg := cfg;
      jobs, pending, active, started, closing, threads, nextSerial := [], [], 0, false, false, 0, 0;
      executing, claimed, finished := map[], {}, {};
    }

    /** Refused once closing; the threads themselves come with `Launch`. */
    method Start()
      requires Valid()
      modifies this`started
      ensures Valid() && (started <==> old(started) || !closing)
      ensures State() == Do(cfg, old(State()), Act.Start)
    {
      hide Books, Staffed;
      DoKeeps(cfg, State(), Act.Start);
      if !closing {
        started := true;
      }
    }

    /** The second block of `start`: the worker threads, unless a shutdown came in between. */
    method Launch()
      requires Valid()
      modifies this`threads
      ensures Valid() && threads == if old(closing) || !old(started) then old(threads) else cfg.maxWorkers
      ensures State() == Do(cfg, old(State()), Act.Launch)
    {
      hide Books, Staffed;
      DoKeeps(cfg, State(), Act.Launch);
      if started && !closing {
        threads := cfg.maxWorkers;
      }
    }

    method Find(q: Query) returns (at: Option<nat>)
      ensures at == First(jobs, q)
    {
      hide First;
      for k := 0 to |jobs|
        invariant forall n :: 0 <= n < k ==> !q.Holds(jobs[n])
      {
        if q.Holds(jobs[k]) {
          return Some(k);
        }
      }
      return None;
    }

    /** Drop the oldest terminal job, if there is one. */
    method EvictTerminal() returns (gone: Option<nat>)
      requires Valid()
      modifies this`jobs
      ensures Valid()
      ensures gone.None? ==> jobs == old(jobs) && forall k :: 0 <= k < |jobs| ==> !jobs[k].status.Terminal()
      ensures gone.Some? ==>
                && gone.value < |old(jobs)| && old(jobs)[gone.value].status.Terminal()
                && (forall k :: 0 <= k < gone.value ==> !old(jobs)[k].status.Terminal())
                && jobs == Without(old(jobs), gone.value)
      ensures gone == First(old(jobs), ByTerminal)
    {
      hide Books, Staffed, First, QueuedIds, RunningSerials, Sound;
      gone := Find(ByTerminal);
      if gone.Some? {
        EvictKeeps(cfg, State(), gone.value);
        jobs := Without(jobs, gone.value);
      }
    }

    /** Admit a job, or refuse it without touching anything but an evicted terminal job. */
    method Submit(id: string) returns (refused: Option<Rejection>, gone: Option<nat>)
      requires Valid()
      modifies this`jobs, this`pending, this`nextSerial
      ensures Valid() && State() == Do(cfg, old(State()), Act.Submit(id))
      ensures refused == if old(closing) then Some(RunnerClosed)
                         else if exists i :: 0 <= i < |old(jobs)| && old(jobs)[i].id == id then Some(DuplicateId)
                         else if |old(pending)| >= cfg.maxPending then Some(QueueFull)
                         else if |old(jobs)| >= cfg.maxRetained && (forall i :: 0 <= i < |old(jobs)| ==> !old(jobs)[i].status.Terminal())
                         then Some(HistoryFull)
                         else None
      ensures refused.Some? ==> jobs == old(jobs) && gone.None?
      ensures refused.None? ==>
                && pending == old(pending) + [id]
                && (gone.None? <==> |old(jobs)| < cfg.maxRetained)
                && (gone.None? ==> jobs == old(jobs) + [Fresh(id, old(nextSerial))])
                && (gone.Some? ==> gone.value < |old(jobs)| && old(jobs)[gone.value].status.Terminal()
                                   && (forall k :: 0 <= k < gone.value ==> !old(jobs)[k].status.Terminal())
                                   && jobs == Without(old(jobs), gone.value) + [Fresh(id, old(nextSerial))])
    {
      hide Books, Staffed, First, QueuedIds, RunningSerials;
      DoKeeps(cfg, State(), Act.Submit(id));
      gone := None;
      if closing {
        return Some(RunnerClosed), None;
      }
      var existing := Find(ById(id));
      if existing.Some? {
        return Some(DuplicateId), None;
      }
      if |pending| >= cfg.maxPending {
        return Some(QueueFull), None;
      }
      if |jobs| >= cfg.maxRetained {
        gone := EvictTerminal();
        if gone.None? {
          return Some(HistoryFull), None;
        }
      }
      jobs, pending, nextSerial := jobs + [Fresh(id, nextSerial)], pending + [id], nextSerial + 1;
      refused := None;
    }

    /** Cancel a queued job; a running one is only asked to stop. */
    method Cancel(id: string) returns (done: bool)
      requires Valid()
      modifies this`jobs, this`pending
      ensures Valid() && State() == Do(cfg, old(State()), Act.Cancel(id))
      ensures done <==> exists i :: 0 <= i < |old(jobs)| && old(jobs)[i].id == id && old(jobs)[i].status.Queued?
      ensures |jobs| == |old(jobs)| && forall i :: 0 <= i < |jobs| ==>
                jobs[i] == if old(jobs)[i].id != id || old(jobs)[i].status.Terminal() then old(jobs)[i]
                           else if old(jobs)[i].status.Queued? then old(jobs)[i].(status := Cancelled)
                           else old(jobs)[i].(cancelRequested := true)
    {
      hide Fits, Staffed, First, QueuedIds, RunningSerials, RemoveFirst;
      DoKeeps(cfg, State(), Act.Cancel(id));
      var found := Find(ById(id));
      if found.None? {
        return false;
      }
      var i := found.value;
      var job := jobs[i];
      if job.status.Terminal() {
        return false;
      }
      if job.status.Queued? {
        RemovePending(id);
        jobs := jobs[i := job.(status := Cancelled)];
        return true;
      }
      jobs := jobs[i := job.(cancelRequested := true)];
      return false;
    }

    /** Take the first occurrence of an id out of the deque. */
    method RemovePending(id: string)
      modifies this`pending
      ensures pending == RemoveFirst(old(pending), id)
    {
      var at := 0;
      while at < |pending| && pending[at] != id
        invariant pending == old(pending) && at <= |pending|
        invariant RemoveFirst(pending, id) == pending[..at] + RemoveFirst(pending[at..], id)
      {
        Associates(pending[..at], [pending[at]], RemoveFirst(pending[at + 1..], id));
        assert pending[at..][1..] == pending[at + 1..] && pending[..at] + [pending[at]] == pending[..at + 1];
        at := at + 1;
      }
      if at < |pending| {
        assert pending[at..] == [id] + pending[at + 1..];
        RemoveHead(pending[at..]);
        pending := pending[..at] + pending[at + 1..];
      }
    }

    /** A worker thread or a `run_next` call takes the oldest queued job. */
    method ClaimNext(who: Caller) returns (taken: Option<nat>)
      requires Valid() && MayClaim(State(), who)
      modifies this`jobs, this`pending, this`active, this`executing, this`claimed
      ensures Valid() && State() == Do(cfg, old(State()), Act.Claim(who))
      ensures taken.None? <==> old(pending) == []
      ensures taken.None? ==> State() == old(State())
      ensures taken.Some? ==>
                && taken.value < |old(jobs)| && old(jobs)[taken.value].id == old(pending)[0]
                && (forall k :: 0 <= k < taken.value ==> !old(jobs)[k].status.Queued?)
                && pending == old(pending)[1..] && active == old(active) + 1
                && jobs == old(jobs)[taken.value := old(jobs)[taken.value].(status := Running, started := true)]
                && old(jobs)[taken.value].serial !in old(claimed)
                && claimed == old(claimed) + {old(jobs)[taken.value].serial}
                && executing == old(executing)[who := old(jobs)[taken.value].serial]
    {
      hide Books, Staffed, First, QueuedIds, RunningSerials, Sound;
      DoKeeps(cfg, State(), Act.Claim(who));
      if pending == [] {
        return None;
      }
      HeadIsFirst(cfg, State());
      taken := Find(ById(pending[0]));
      var i := taken.value;
      TakenKeeps(cfg, State(), who, i);
      ViewEmpty(jobs[..i]);
      assert forall k :: 0 <= k < i ==> jobs[k] == jobs[..i][k];
      var job := jobs[i];
      pending := pending[1..];
      jobs := jobs[i := job.(status := Running, started := true)];
      active := active + 1;
      executing, claimed := executing[who := job.serial], claimed + {job.serial};
    }

    /** The caller that claimed a job records how it ended; its job is running, whatever happened since. */
    method Finish(who: Caller, ending: Ending) returns (i: nat)
      requires Valid() && who in executing
      modifies this`jobs, this`active, this`executing, this`finished
      ensures Valid() && State() == Do(cfg, old(State()), Act.Finish(who, ending))
      ensures i < |old(jobs)| && old(jobs)[i].serial == old(executing)[who] && old(jobs)[i].status.Running?
      ensures jobs == old(jobs)[i := old(jobs)[i].(status := ending)] && active == old(active) - 1
      ensures executing == old(executing) - {who}
      ensures old(jobs)[i].serial !in old(finished) && finished == old(finished) + {old(jobs)[i].serial}
    {
      hide Books, Staffed, First, QueuedIds, RunningSerials, Sound;
      DoKeeps(cfg, State(), Act.Finish(who, ending));
      HeldIsRunning(cfg, State(), who);
      var at := Find(BySerial(executing[who]));
      i := at.value;
      var job := jobs[i];
      finished, executing := finished + {job.serial}, executing - {who};
      jobs := jobs[i := job.(status := ending)];
      if active != 0 && job.started {
        active := active - 1;
      }
    }

    /** Stop accepting work; queued jobs are cancelled unless the workers are to drain them. */
    method Shutdown(cancelPending: bool)
      requires Valid()
      modifies this`jobs, this`pending, this`closing
      ensures Valid() && State() == Do(cfg, old(State()), Act.Shutdown(cancelPending))
      ensures closing && |jobs| == |old(jobs)|
      ensures var cancels := !old(closing) && (cancelPending || !started);
              && (cancels ==> pending == [])
              && forall k :: 0 <= k < |jobs| ==>
                   jobs[k] == if cancels && old(jobs)[k].status.Queued? then old(jobs)[k].(status := Cancelled) else old(jobs)[k]
    {
      hide Books, Staffed, First, QueuedIds, RunningSerials;
      DoKeeps(cfg, State(), Act.Shutdown(cancelPending));
      if !closing {
        closing := true;
        if cancelPending || !started {
          CancelPending();
        }
      }
    }

    /** Pop and cancel until the deque is empty. */
    method CancelPending()
      requires Valid()
      modifies this`jobs, this`pending
      ensures Valid() && pending == [] && jobs == CancelQueued(old(jobs))
    {
      hide Books, Staffed, First, RunningSerials, CancelQueued;
      while pending != []
        invariant Valid() && CancelQueued(jobs) == CancelQueued(old(jobs))
        decreases |pending|
      {
        CancelHead();
      }
      ViewEmpty(jobs);
      assert jobs == CancelQueued(jobs);
    }

    method CancelHead()
      requires Valid() && pending != []
      modifies this`jobs, this`pending
      ensures Valid() && pending == old(pending)[1..] && CancelQueued(jobs) == CancelQueued(old(jobs))
    {
      hide Books, Staffed, First, QueuedIds, RunningSerials, CancelQueued, RemoveFirst;
      HeadIsFirst(cfg, State());
      CancelKeeps(cfg, State(), pending[0]);
      var at := Find(ById(pending[0]));
      RemoveHead(pending);
      jobs := jobs[at.value := jobs[at.value].(status := Cancelled)];
      pending := pending[1..];
    }
  }

  lemma RemoveHead(ids: seq<string>)
    requires ids != []
    ensures RemoveFirst(ids, ids[0]) == ids[1..]
  {}
}
