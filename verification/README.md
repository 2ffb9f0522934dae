# Verified models of the durable job system and its release checkers

Dafny models of the parts of the repository whose correctness is a matter of
protocol, state or parsing, with proofs about every input, every run and every
interleaving. `dafny verify dfyconfig.toml` checks the whole project.

## What is modelled

**The canonical job queue** (`Jobs`, `JobStore`, `JobInvariant`,
`JobTransactions`, `ClaimOrder`, `JobQueue`, `JobRuns`, `JobFencing`,
`JobAuthority`, `JobFairness`, `JobTheorems`, `PostgresQueue`). A job is the immutable value of
the job contract; its durable record is a row, the rows of its attempts table and
its lifecycle events. Each database transaction on one row is a function from a
record to a committed record or an abort, with the branches, error codes and
clock readings of the adapter. `JobQueue` puts the records of all jobs, the
unique index, admission, the claim with its two lanes and every other operation
into one `World` and forms runs: sequences of operations of any number of
clients. A run is *timely* when the database clock never runs back and lease
tokens are new. `Follows` is what a commit must keep between a record and its
successor; it is reflexive and transitive, every transaction is proved to be such
a step, and the whole-run statements (fencing, frozen terminal jobs, the event
log refining the row, publication authority, bounded overtaking) follow from it;
`JobTheorems` states them on whole histories of the database.
`PostgresQueue` is the adapter as it executes, a class whose methods write row,
attempts and events step by step and roll back on error, each proved equal to its
transaction.

**The worker runtime** (`Runtime`, `Fleet`, `RuntimeCycle`). One execution is a
state machine over any number of monitor threads, the handler thread,
cancellation, timeout, lease loss and shutdown; only the blocks under the
execution lock are atomic, so flags are read before finalization begins. `Fleet`
composes any number of executions of any number of runtimes, poisoned claims
included, with the shared queue. `RuntimeCycle` is the polling cycle and the
daemon as a class; what other threads do arrives as events.

**The local queue, the audit outbox and the local runner** (`DurableQueue`,
`DurableRuns`, `SqliteQueue`, `Outbox`, `LocalRunner`, `LocalRuns`, `LocalBound`).
Transactions or locked blocks again are atomic; the classes change their tables in
place and are proved against functions about which the invariants and run properties
are proved. The runner's state includes which thread or `run_next` call holds which
job, so that its runs are those of any number of callers.

**The release checkers** (`LayerTar`, `Pax`, `Spdx`, `ShellLexer`,
`WorkflowGraph`). A streaming tar checker against a grammar of whole archives,
the PAX record check (pax utility, IEEE Std 1003.1) in both directions, SPDX
identities, file evidence and reachability (clauses 6 to 8 and 11 of SPDX 2.3)
against paths, a shell lexer (sections 2.2,
2.3 and 2.7.4 of the Shell Command Language, IEEE Std 1003.1) against printing,
and two dependency walks against the existence of a faulty walk.

## Where the code and its description differ

- The audit projection inserts and publishes under the *cleaned* event id
  (`apps/worker/admin_audit_outbox.py:223-269`, `296-326`). A row whose id has
  surrounding blanks can therefore publish another row with the wrong event.
  `Outbox.AliasBreaks` gives the run, `Outbox.ExactlyOnceIff` the exact condition
  under which exactly-once holds on every run.
- The local runner's documentation calls `max_workers` an exact bound on running
  tasks (`apps/worker/runner.py:277-279`); `run_next` claims without it
  (`apps/worker/runner.py:525-532`). `LocalBound.OneWorkerTwoTasks` gives the run,
  `LocalBound.BoundIff` the exact condition on the use of the runner under which the
  bound holds on every run.
- The local queue lets nobody renew, acknowledge or fail an expired lease, but its
  `cancel` compares the owner string and not the expiry
  (`apps/worker/durable_queue.py:606-616`). `DurableRuns.ExpiredHolderCancels` gives
  the table, `DurableRuns.ExpiredHolderActsIff` and `DurableRuns.CancelExact` say
  exactly what commits.

## Model

| member | source | states |
|---|---|---|
| `Jobs.StartAttemptExact` | packages/jobs/src/rick_jobs/contracts.py:733-766 | A claim is granted exactly to a queued job whose clock has not run ahead of the caller; it appends one running attempt, adds one to the version and yields a valid job. |
| `Jobs.FinishAttemptExact` | packages/jobs/src/rick_jobs/contracts.py:768-852 | Closing an attempt succeeds exactly when state, clock, target, payload and finish time fit; it closes the last attempt, moves nothing before it and adds one to the version. |
| `Jobs.TransitionExact` | packages/jobs/src/rick_jobs/contracts.py:854-920 | A transition outside RUNNING is accepted exactly along the state graph at a later time (with retry budget for RETRYING), keeps every attempt and adds one to the version. |
| `Jobs.ResumeExact` | apps/worker/postgres_jobs.py:1488-1493 | Handing a running attempt to a new lease always yields a valid job with the same attempts and the next version. |
| `Common.CappedDoubles` | apps/worker/postgres_jobs.py:1437-1439 | Retry delays are monotone, never exceed their cap, and double with every further attempt until they reach it. |
| `JobInvariant.PersistFollows` | apps/worker/postgres_jobs.py:792-917 | Every persisted contract step keeps the record invariant, appends exactly its own event, kills every lease not granted by it, and leaves the job it was given. |
| `JobInvariant.WriteReplaces` | apps/worker/postgres_jobs.py:631-657 | Upserting a grown history, where only running rows accept the update, leaves the attempts table equal to that history over the earlier one. |
| `JobInvariant.HistoryWritten` | apps/worker/postgres_jobs.py:473-503 | What was written to the attempts table is read back as exactly the job's attempt list. |
| `JobInvariant.NewVersionUnlogged` | apps/worker/postgres_jobs.py:774-790 | The event id of a new version has never been used, so the insert is never dropped by the conflict clause. |
| `JobInvariant.FollowsTrans` | apps/worker/postgres_jobs.py:792-917 | What one commit keeps (identity, version order, log prefix, frozen history, frozen terminal jobs, dead leases staying dead) is kept by any chain of commits. |
| `JobTransactions.ReconcileFollows` | apps/worker/postgres_jobs.py:1269-1310 | The publication owner's answer can only settle the row, defer it untouched or offer it for resumption; it is offered exactly when resumption is allowed and the continuation's facts are those of this attempt, and a loss is recorded only on a cancellation with the attempt's own facts. |
| `JobTransactions.FailKeeps` | apps/worker/postgres_jobs.py:1687-1753 | A failure commits only for the live lease at its version; denied by the owner, the job ends requeued three versions later while budget remains and dead-lettered two versions later otherwise, with that failure on its last attempt. |
| `JobTransactions.AcknowledgeKeeps` | apps/worker/postgres_jobs.py:1629-1685 | An acknowledgement commits only for the live lease at its version, and either records success or leaves job, lease and log as they were; submitted facts about another attempt, or an answer without authority, always do the latter. |
| `JobTransactions.HeartbeatKeeps` | apps/worker/postgres_jobs.py:1563-1627 | A renewal commits only for the live lease and changes no version, attempt or state. |
| `JobTransactions.CancelKeeps` | apps/worker/postgres_jobs.py:1755-1799 | Public cancellation never takes a running lease: without a settling owner it leaves the running row untouched; a row that is not running is cancelled only along the state graph. |
| `JobTransactions.CancelLeaseKeeps` | apps/worker/postgres_jobs.py:1801-1839 | Lease cancellation commits only for the live lease, cancels when the owner denies the publication, and leaves the row alone when the request port raises. |
| `JobTransactions.RecoverPublicationKeeps` | apps/worker/postgres_jobs.py:1312-1334 | Polling settles a running row and never starts or consumes an attempt. |
| `JobTransactions.RecoverExpiredKeeps` | apps/worker/postgres_jobs.py:1354-1434 | Recovering a running row never breaks the sweep; the lost attempt fails only when the owner denies it, and the row is offered for resumption exactly when the continuation's facts are those of this attempt and room is left. |
| `JobTransactions.ClaimOneKeeps` | apps/worker/postgres_jobs.py:1479-1515 | A grant goes exactly to a running row offered for resumption or to a queued one whose clock allows it, at the hinted version; a resume adds no attempt and moves the recovery marker to the clock. |
| `JobTransactions.AfterFailureFollows` | apps/worker/postgres_jobs.py:1394-1434 | A failed attempt is retried after its backoff or dead-lettered, always successfully, in the same transaction. |
| `JobTransactions.QueuePendingKeeps` | apps/worker/postgres_jobs.py:1033-1044 | Queueing an admitted job always succeeds and only moves a pending one. |
| `JobTransactions.InsertKeeps` | apps/worker/postgres_jobs.py:920-961 | The first row of a job satisfies the record invariant and holds no lease; only a running job is refused. |
| `ClaimOrder.LessTotal` | apps/worker/postgres_jobs.py:1476-1478 | The sort key is a strict total order on candidates. |
| `ClaimOrder.FirstIsPrefix` | apps/worker/postgres_jobs.py:447-470 | Every row a limited, ordered selection returns precedes every row it leaves out. |
| `ClaimOrder.FirstDistinct` | apps/worker/postgres_jobs.py:447-470 | A limited, ordered selection returns no row twice. |
| `ClaimOrder.TruncationIsExact` | apps/worker/postgres_jobs.py:1463-1479 | Taking only the first ready rows before the merge and truncating after it gives exactly the first rows of the full union of both lanes. |
| `JobRuns.RecoverAllKeeps` | apps/worker/postgres_jobs.py:1336-1435 | The sweep over selected expired rows never fails and touches no other row. |
| `JobRuns.ClaimKeeps` | apps/worker/postgres_jobs.py:1441-1526 | A committed claim keeps every record's invariant and every lease it did not supersede. |
| `JobRuns.AdmissionStep` | apps/worker/postgres_jobs.py:1019-1073 | Admission keeps the database invariant, the unique (scope, idempotency key) index included. |
| `JobRuns.AdmissionExact` | apps/worker/postgres_jobs.py:1019-1073 | A known key is answered with its own job if and only if envelope and version agree, changing at most a pending state; a new key is admitted if and only if there is room, no version is expected, the id is unused and the job is not running. |
| `JobRuns.CreationStep` | apps/worker/postgres_jobs.py:1002-1017 | Create-or-replay keeps the database invariant and the unique index. |
| `JobRuns.NextKeeps` | apps/worker/postgres_jobs.py:314-1839 | Every operation of any client keeps the database invariant, and every row follows its predecessor. |
| `JobRuns.RunKeeps` | apps/worker/postgres_jobs.py:314-1839 | Over every interleaving of operations the invariant holds, the clock is monotone and no row loses what a commit must keep. |
| `JobFencing.OwnerHeldLease` | apps/worker/postgres_jobs.py:1528-1561 | An owner that is answered held the live lease: same worker, same token, unexpired, at the row's current version. |
| `JobFencing.StepSupersedes` | apps/worker/postgres_jobs.py:849-917 | Every version step ends all leases issued before it. |
| `JobFencing.SupersededStaysDead` | apps/worker/postgres_jobs.py:1479-1525 | A lease that has lost its row never regains it in any run. |
| `JobAuthority.LossesKept` | apps/worker/postgres_jobs.py:1221-1310 | A committed step adds no failed or cancelled attempt beyond the running one the owner has just denied. |
| `JobAuthority.RowTxnLoses` | apps/worker/postgres_jobs.py:1653-1826 | An owner, caller or polling transaction records a loss only under a denial of that very attempt; acknowledgement and renewal never do. |
| `JobAuthority.InconclusiveChangesNothing` | apps/worker/postgres_jobs.py:1629-1839 | In every owner, caller or polling transaction on a row, authority that is unavailable, malformed or about another attempt, submitted facts included, leaves job, lease and log unchanged. |
| `JobAuthority.SweepHeeds` | apps/worker/postgres_jobs.py:1336-1435 | In the expiry recovery of a claim a row is offered only on a continuation with its own attempt's facts, and every answer without authority leaves its job, lease and log unchanged. |
| `JobAuthority.ClaimHeedsOwner` | apps/worker/postgres_jobs.py:1441-1526 | The same of a whole claim: a running row whose owner's answer carries no authority stays as it was unless the answer continues its own attempt. |
| `JobFairness.ClaimServesOldest` | apps/worker/postgres_jobs.py:1457-1526 | A successful claim hands out exactly the oldest rows of both lanes together, oldest first, each under its own token, no job twice. |
| `JobFairness.ResumedPrecedesWaiting` | apps/worker/postgres_jobs.py:1360-1367 | A claim that leaves a ready row waiting resumes only rows whose age precedes it, and moves their marker to the clock. |
| `JobTheorems.FencedForever` | apps/worker/postgres_jobs.py:1528-1561 | Over every history of the database: a token that was issued and does not own a job in some state never acts on it again; its operations are refused and change nothing, whatever runs in between. |
| `JobTheorems.LeasePersistsOnce` | apps/worker/postgres_jobs.py:880-917 | Over every history, a lease that has persisted a step is refused ever after. |
| `JobTheorems.OneAnsweredPerInstant` | apps/worker/postgres_jobs.py:887-910 | In no reachable state can two different (worker, token, version) both be answered on one job. |
| `JobTheorems.TerminalForever` | apps/worker/postgres_jobs.py:1687-1839 | A succeeded, cancelled or dead-lettered job reads the same in every later state of every history. |
| `JobTheorems.LogExplainsRow` | apps/worker/postgres_jobs.py:766-790 | In every reachable state each row is explained by its own log: gap-free versions, chained states, replay to the row's state, one claim for each attempt. |
| `JobTheorems.LogOnlyGrows` | apps/worker/postgres_jobs.py:631-674 | Between any two states of a history, logs, versions and attempts grow in step and finished attempts stay. |
| `JobTheorems.CommittedSurvives` | apps/worker/postgres_jobs.py:1269-1310 | In every state of every history whose publication owner denies only what never commits, no committed attempt is failed or cancelled. |
| `JobTheorems.OvertakenOnce` | apps/worker/postgres_jobs.py:1463-1479 | Between any two states in which a ready job waits, any other job of its scope is resumed ahead of it at most once. |
| `PostgresQueue.PostgresJobQueue.Store` | apps/worker/postgres_jobs.py:792-917 | The fenced write changes row, attempts and log together exactly as the write-path specification, or leaves the table alone with its error. |
| `PostgresQueue.PostgresJobQueue.InsertAttempts` | apps/worker/postgres_jobs.py:631-657 | The attempt loop computes the specified table. |
| `PostgresQueue.PostgresJobQueue.Consult` | apps/worker/postgres_jobs.py:1269-1310 | Consulting the owner has exactly the specified effect on the row, for every answer. |
| `PostgresQueue.PostgresJobQueue.Fail` | apps/worker/postgres_jobs.py:1687-1753 | The transaction commits exactly the specified record or rolls every row back. |
| `PostgresQueue.PostgresJobQueue.Acknowledge` | apps/worker/postgres_jobs.py:1629-1685 | The transaction commits exactly the specified record or leaves every row alone. |
| `PostgresQueue.PostgresJobQueue.RecoverRow` | apps/worker/postgres_jobs.py:1354-1434 | Recovering one row has exactly the specified effect. |
| `PostgresQueue.PostgresJobQueue.Sweep` | apps/worker/postgres_jobs.py:1354-1435 | The recovery loop computes the specified sweep and offers the same rows. |
| `PostgresQueue.PostgresJobQueue.Claim` | apps/worker/postgres_jobs.py:1441-1526 | The claim computes the specified batch, or restores the whole table. |
| `Runtime.OneFinalizer` | apps/worker/runtime.py:929-960 | In every interleaving of monitors, handler, cancellation, timeout and shutdown an execution makes at most one finishing queue call, writes its outcome at most once, and never changes it. |
| `Runtime.OwnedStep` | apps/worker/runtime.py:950-960 | Each step keeps at most one owner of the finalization, which accounts for any call already made. |
| `Runtime.SuccessNeedsCall` | apps/worker/runtime.py:1082-1116 | An execution counts success only from a finishing call the queue answered with the succeeded job. |
| `Runtime.FreshInv` | apps/worker/runtime.py:1311-1348 | Admitted and poisoned claims both start with their finalization accounted for. |
| `Fleet.WinIsNew` | apps/worker/runtime.py:1015-1043 | An owner told that its job succeeded has itself just moved the durable row there. |
| `Fleet.OutcomeTellsRow` | apps/worker/runtime.py:962-1116 | Every answered finishing call is counted as what the durable row has become: succeeded, still running, cancelled, or requeued or dead-lettered for a failure. |
| `Fleet.SucceededOnceAndForever` | apps/worker/runtime.py:962-992 | With any number of runtimes on one queue, at most one execution ever counts a job as succeeded, and from then on the durable row says SUCCEEDED. |
| `RuntimeCycle.OutcomesPartition` | apps/worker/runtime.py:1535-1547 | Each started execution is pending or falls in exactly one of the five outcomes. |
| `RuntimeCycle.WorkerRuntime.Record` | apps/worker/runtime.py:929-948 | The outcome and its metric are written once; a second finalizer changes nothing. |
| `RuntimeCycle.WorkerRuntime.Reap` | apps/worker/runtime.py:1191-1203 | Exactly the executions whose handler and outcome are both done leave the active set. |
| `RuntimeCycle.WorkerRuntime.AdmitOne` | apps/worker/runtime.py:1461-1533 | One claimed item is refused, poisoned or registered, exactly by its checks and by what the cycle remembers. |
| `RuntimeCycle.WorkerRuntime.Admit` | apps/worker/runtime.py:1447-1533 | Whatever other threads do between the items, an item is refused exactly when it is malformed or its identity was active when the cycle began or was validated earlier in it; every item is started or poisoned and the metrics account for it. |
| `RuntimeCycle.WorkerRuntime.WaitFor` | apps/worker/runtime.py:1386-1395 | The wait ends only when every target has its outcome or the runtime is closed. |
| `RuntimeCycle.WorkerRuntime.RunCycle` | apps/worker/runtime.py:1433-1563 | A cycle never exceeds capacity, claimed equals started plus poisoned, every figure is the count of its outcome, claims are conserved over the outcomes, and the claim metrics grow by the report; when it waits and the runtime is not closed, nothing it started is pending and the five outcomes account for every execution. |
| `RuntimeCycle.WorkerRuntime.RunDaemon` | apps/worker/runtime.py:1577-1642 | The daemon's totals equal the growth of every metric over the run. |
| `RuntimeCycle.WorkerRuntime.CountErrors` | apps/worker/runtime.py:1606-1614 | Consecutive queue errors stop the daemon exactly when they reach the limit, and a clean cycle resets them. |
| `LayerTar.LayerTarInventory.Feed` | infrastructure/vps/publish_candidate.py:76-124 | Feeding a chunk is running its bytes one by one, refusals included. |
| `LayerTar.LayerTarInventory.Finish` | infrastructure/vps/publish_candidate.py:152-155 | Finishing accepts exactly the completed states. |
| `LayerTar.RunAppend` | infrastructure/vps/publish_candidate.py:76-124 | Feeding two chunks in turn equals feeding their concatenation, from every state. |
| `LayerTar.Inspect` | infrastructure/vps/publish_candidate.py:158-192 | However a stream is cut, the verdict and the reason depend on its bytes only. |
| `LayerTar.TailDone` | infrastructure/vps/publish_candidate.py:98-103 | After a terminator block only whole zero blocks may follow, and at least two are needed. |
| `LayerTar.AcceptsExactly` | infrastructure/vps/publish_candidate.py:76-155 | Feed-then-finish accepts exactly the strings made of complete, zero-padded, admissible members, no dangling extension header, then two or more zero blocks. |
| `Pax.LengthExists` | infrastructure/vps/publish_candidate.py:126-150 | A decimal length that counts its own digits exists for every record body. |
| `Pax.CheckRecords` | infrastructure/vps/publish_candidate.py:126-150 | The offset loop terminates and computes the recursive check. |
| `Pax.RenderedIsAccepted` | infrastructure/vps/publish_candidate.py:126-150 | A payload of well-formed records is accepted exactly when no keyword carries size or sparse meaning, and is never called malformed. |
| `Pax.AcceptedIsRendered` | infrastructure/vps/publish_candidate.py:126-150 | Every accepted payload is the rendering of well-formed records without such keywords. |
| `Pax.RoundTrip` | infrastructure/vps/publish_candidate.py:126-150 | For every list of keywords and values within the size bound, canonical lengths exist and the rendered payload is accepted exactly when every keyword is allowed. |
| `Spdx.CollectNodes` | infrastructure/vps/publish_candidate.py:253-258 | Identities are collected exactly when they carry the prefix, are unique and none is the document's. |
| `Spdx.CheckFiles` | infrastructure/vps/publish_candidate.py:259-266 | Files pass exactly when each is named and has checksums, all of a known algorithm, its length and hexadecimal digits. |
| `Spdx.BuildGraph` | infrastructure/vps/publish_candidate.py:270-282 | The graph holds exactly the declared edges, dependency-of reversed, and is built exactly when the relationships are closed. |
| `Spdx.Search` | infrastructure/vps/publish_candidate.py:283-287 | The worklist terminates although nodes may wait repeatedly, and reaches exactly the nodes on a path from the document. |
| `Spdx.Admit` | infrastructure/vps/publish_candidate.py:236-302 | A document is accepted exactly when metadata, identities, files, relationships, reachability, versions and file evidence are as required, and its versioned packages are returned. |
| `WorkflowGraph.SoundExactly` | scripts/phase11/check_canonical_ci.py:65-85 | The recursive walk fails exactly when a missing or malformed name or a cycle can be reached. |
| `WorkflowGraph.VisitingIrrelevant` | scripts/phase11/check_canonical_ci.py:65-85 | A job's answer does not depend on the path by which it was reached. |
| `WorkflowGraph.ReachableExact` | scripts/phase11/check_canonical_ci.py:65-85 | The job walk answers None exactly on a reachable fault, and otherwise the one value of every solution of ok(j) = enabled(j) and (always(j) or all needs ok), of which it is one. |
| `WorkflowGraph.Collect` | scripts/phase11/check_canonical_ci.py:663-683 | The target walk fails exactly on a missing, non-phony, refused or cyclic target and otherwise yields the commands in post-order. |
| `WorkflowGraph.PostOrderStable` | scripts/phase11/check_canonical_ci.py:663-683 | The commands of a target do not depend on the path by which it was reached. |
| `ShellLexer.ShellTokens` | scripts/phase11/check_canonical_ci.py:138-240 | The index loop computes the recursive lexer, errors included. |
| `ShellLexer.Quote` | scripts/phase11/check_canonical_ci.py:184-203 | The quote loop reads exactly the quoted text and its expansions. |
| `ShellLexer.Bodies` | scripts/phase11/check_canonical_ci.py:218-229 | The body loop skips exactly the pending here-documents. |
| `ShellLexer.RoundTrip` | scripts/phase11/check_canonical_ci.py:138-240 | Any list of words, whatever their characters, and plain operators is recovered exactly from its quoted print, no word dynamic or an assignment. |
| `ShellLexer.HeredocBodyIgnored` | scripts/phase11/check_canonical_ci.py:204-229 | Whatever text comes first and however many here-documents it leaves pending at a newline, with bodies no line of which closes early, the tokens are those of that text, the newline and what follows the last closing line. |
| `ShellLexer.NewlineReads` | scripts/phase11/check_canonical_ci.py:204-229 | In any state at a newline: a redirection without delimiter or with an unverifiable one is refused, and otherwise every pending body is skipped and lexing goes on behind the last closing line. |
| `ShellLexer.ArrivesLexes` | scripts/phase11/check_canonical_ci.py:138-229 | A text up to a newline is lexed the same way whatever follows that newline. |
| `ShellLexer.HeredocLine` | scripts/phase11/check_canonical_ci.py:138-229 | A line of words, operators and here-documents in any number and order, delimiters quoted or bare, reads as its own tokens, a newline and what follows the bodies. |
| `DurableQueue.ApplyKeeps` | apps/worker/durable_queue.py:366-621 | Every transaction keeps active and terminal rows within their bounds, keys unique and row shapes sound; a surviving row is untouched or strictly descends, and only rows that are or just became terminal vanish. |
| `DurableQueue.PruneKeeps` | apps/worker/durable_queue.py:366-395 | Pruning restores the terminal window and never deletes an active or the preserved row. |
| `DurableQueue.VictimsFit` | apps/worker/durable_queue.py:366-395 | Exactly the excess is deleted, all of it terminal, never the preserved row. |
| `DurableQueue.PruneTakesOldest` | apps/worker/durable_queue.py:386-395 | A deleted row precedes every prunable row that is kept. |
| `DurableQueue.RecoverKeeps` | apps/worker/durable_queue.py:397-415 | Recovery keeps the table sound and only moves expired rows down. |
| `DurableRuns.SupersededNeverActs` | apps/worker/durable_queue.py:515-621 | Once an owner string has lost its job, no later heartbeat, acknowledgement or failure presenting it changes the table, and no cancellation does while another owner has the job leased. |
| `DurableRuns.StrangerCannotCancel` | apps/worker/durable_queue.py:606-621 | A leased job is cancelled only by its holder. |
| `DurableRuns.CancelExact` | apps/worker/durable_queue.py:600-629 | A cancellation commits exactly when the job is present and, if it is leased, its owner string is presented, whatever expiry and clock say; then the job is cancelled, or stays as it ended. |
| `DurableRuns.ExpiredHolderActsIff` | apps/worker/durable_queue.py:515-621 | Of all operations the holder of an expired lease may try before recovery runs, exactly the cancellation commits. |
| `DurableRuns.ExpiredHolderCancels` | apps/worker/durable_queue.py:606-616 | A concrete table: a lease that has ended refuses heartbeat, acknowledgement and failure, and its holder still cancels the job. |
| `DurableRuns.SecondGrant` | apps/worker/durable_queue.py:397-415 | A job leaves its owner only after the owner gave it up or recovery ran at or past the lease's last expiry. |
| `DurableRuns.ClaimedWithinBudget` | apps/worker/durable_queue.py:481-512 | As long as a job is retained it is claimed at most max_attempts times. |
| `DurableRuns.LeaseLasts` | apps/worker/durable_queue.py:481-536 | A granted or renewed lease may act exactly until its term ends. |
| `DurableRuns.BackoffHolds` | apps/worker/durable_queue.py:541-570 | A failed job is requeued exactly while budget remains, and claims see it exactly from the end of its delay on. |
| `DurableRuns.ReachableInv` | apps/worker/durable_queue.py:233-395 | Every reachable table satisfies the bounds. |
| `SqliteQueue.SQLiteDurableQueue.RecoverExpired` | apps/worker/durable_queue.py:397-415 | The recovery loop changes exactly the expired rows and counts them. |
| `SqliteQueue.SQLiteDurableQueue.PruneTerminal` | apps/worker/durable_queue.py:366-395 | The deletion loop computes the specified pruning. |
| `SqliteQueue.SQLiteDurableQueue.Enqueue` | apps/worker/durable_queue.py:417-479 | The transaction leaves exactly the specified table or rolls back. |
| `SqliteQueue.SQLiteDurableQueue.Claim` | apps/worker/durable_queue.py:481-513 | The transaction leaves exactly the specified table; the batch returned is exactly the selected rows in their order, each as it now stands under its own owner string, and every other row is as it was. |
| `SqliteQueue.SQLiteDurableQueue.Heartbeat` | apps/worker/durable_queue.py:515-536 | The transaction leaves exactly the specified table or is refused. |
| `SqliteQueue.SQLiteDurableQueue.Ack` | apps/worker/durable_queue.py:579-598 | The transaction leaves exactly the specified table or is refused. |
| `SqliteQueue.SQLiteDurableQueue.Fail` | apps/worker/durable_queue.py:541-570 | The transaction leaves exactly the specified table or is refused. |
| `SqliteQueue.SQLiteDurableQueue.Cancel` | apps/worker/durable_queue.py:600-629 | The transaction leaves exactly the specified table or is refused. |
| `SqliteQueue.SQLiteDurableQueue.Recover` | apps/worker/durable_queue.py:631-638 | The transaction leaves exactly the recovered and pruned table and reports how many leases had expired. |
| `Outbox.PostgresAdminAuditReconciler.ProjectRows` | apps/worker/admin_audit_outbox.py:296-326 | The batch loop computes the specified projection and stops at the same row. |
| `Outbox.PostgresAdminAuditReconciler.ProcessOnce` | apps/worker/admin_audit_outbox.py:385-441 | One call leaves exactly the specified tables for every way the batch can end, an ambiguous commit included. |
| `Outbox.PostgresAdminAuditReconciler.RecordFailures` | apps/worker/admin_audit_outbox.py:328-383 | The failure loop charges each row that is still pending once per listed id, and no other. |
| `Outbox.ActKeeps` | apps/worker/admin_audit_outbox.py:271-441 | One batch or follow-up transaction of any worker keeps exactly-once: published rows keep their own audit event and never change, audit rows never change, no row is both published and dead. |
| `Outbox.AliasBreaks` | apps/worker/admin_audit_outbox.py:296-326 | When a row's cleaned id is another row's with a different event, one batch publishes that row with the wrong event; the rows it passes over are locked by a batch that rolls back. |
| `Outbox.ExactlyOnceIff` | apps/worker/admin_audit_outbox.py:271-326 | From a table of fresh rows every run of any workers, rollbacks and ambiguous commits is exactly-once if and only if no row aliases another. |
| `Outbox.CycleIsActs` | apps/worker/admin_audit_outbox.py:385-441 | One call is one batch transaction and, when its failures are recorded, one follow-up transaction. |
| `Outbox.CycleProgresses` | apps/worker/admin_audit_outbox.py:328-441 | When the follow-up failure transaction commits, every non-empty batch strictly lowers the attempts left over all pending rows. |
| `LocalRunner.QueuedOnce` | apps/worker/runner.py:381-426 | The deque, read off the job dictionary, holds no id twice. |
| `LocalRunner.LocalJobRunner.Submit` | apps/worker/runner.py:381-426 | A submission is refused in exactly four cases, in their order; otherwise it joins the end of the deque and drops at most one terminal job. |
| `LocalRunner.LocalJobRunner.EvictTerminal` | apps/worker/runner.py:709-714 | Exactly the oldest terminal job is dropped, if there is one. |
| `LocalRunner.LocalJobRunner.Cancel` | apps/worker/runner.py:449-490 | A queued job is cancelled and leaves the deque; a running one is only asked to stop; a terminal one is unchanged. |
| `LocalRunner.LocalJobRunner.ClaimNext` | apps/worker/runner.py:608-628 | A thread or a run_next call takes the oldest queued job, which nobody ever claimed before, and the active count follows. |
| `LocalRunner.LocalJobRunner.Finish` | apps/worker/runner.py:630-707 | A caller that holds a claim finishes exactly the job it claimed, which is running and was never finished before, and the active count follows. |
| `LocalRunner.LocalJobRunner.Shutdown` | apps/worker/runner.py:547-577 | Shutdown cancels exactly the queued jobs, or leaves them to the workers, and touches no other. |
| `LocalRunner.LocalJobRunner.Launch` | apps/worker/runner.py:372-379 | The worker threads come with the second block of start, unless a shutdown came first. |
| `LocalRunner.DoKeeps` | apps/worker/runner.py:352-714 | Every step of anyone keeps the bounds and the books: the deque is the queued jobs, the active count the running jobs, and each running job is held by exactly one caller. |
| `LocalRuns.RunsUntilFinished` | apps/worker/runner.py:608-669 | Over every run a claimed job runs on under the caller that claimed it until that caller finishes it. |
| `LocalRuns.FinishIsOwn` | apps/worker/runner.py:630-707 | Every finish ends a job its own caller claimed earlier in the run and that ran under it in every state since, and gives it the reported status. |
| `LocalRuns.FinishedOnce` | apps/worker/runner.py:682-707 | Over every run no job is finished twice, by whomever. |
| `LocalRuns.ClaimsInOrder` | apps/worker/runner.py:608-628 | Over every run jobs are claimed strictly in the order of their submission, so none is claimed twice. |
| `LocalRuns.EndedForever` | apps/worker/runner.py:449-490 | Over every run a job that has ended is never relabelled: it stays as it is until it is evicted, and an evicted job never returns. |
| `LocalRuns.LeftOnlyEnded` | apps/worker/runner.py:709-714 | Every submitted job that is no longer retained had ended there first. |
| `LocalBound.ActiveIsHeld` | apps/worker/runner.py:608-707 | In every state of every run the running tasks are the busy threads plus the run_next calls in flight, and busy threads stay within max_workers. |
| `LocalBound.BoundIff` | apps/worker/runner.py:525-532 | max_workers bounds the running tasks on every run of a usage if and only if nobody calls run_next, or the threads are never started and at most max_workers calls are in flight, or no more than max_workers jobs are retained. |
| `LocalBound.OneWorkerTwoTasks` | apps/worker/runner.py:525-532 | A concrete run with max_workers 1: a run_next call that claims while nothing runs and one thread run two tasks. |

## Left out

- JobQueue: `save`, `transition`, `schedule`, `replay_dead_letter`, `prune_terminal` and legacy rows without a contract state are administrative writes outside the lifecycle runs; the history guard at `apps/worker/postgres_jobs.py:659-674` is only called from them.
- JobQueue.CreateOrReplay: it does not count capacity, as in the source; the capacity bound is proved for the local queue.
- JobStore: the `document_id` column, event metadata, the outbox and audit projections of job events, and the text of failures carry no lifecycle meaning and are omitted; event ids are structured values instead of formatted text, and the digest that identifies a publication attempt is its input.
- JobStore: a transaction reads the database clock once when it locks its row and once when it writes; readings inside one claim are not told apart further.
- ClaimOrder: ids are compared by code point; the database may use another collation for ties.
- JobQueue.ClaimRequest: rows held by other transactions are an arbitrary set the claim skips; the fairness statement is about rows no claim of the run skips.
- JobAuthority: the publication owner is an environment; what it answers is arbitrary, and only the run-level theorem restricts it to denying attempts that never commit. Attempts a job already carried when it was first inserted are not the queue's doing.
- Jobs.Transition: transitions into or out of RUNNING are refused by the contract and not modelled as calls; the queue never makes them.
- PostgresQueue: heartbeat, cancellation, lease cancellation, polling and admission are modelled on values only; the class covers the write path, failure, acknowledgement, recovery and claiming.
- Runtime: payload decoding, handler lookup, tracing and observability appear only as the outcomes the code branches on; sleeping, polling intervals and the finite-time progress of waiting loops are not modelled.
- RuntimeCycle.WorkerRuntime.WaitFor: a wait is given finitely many turns, and one they leave unfinished lasts until the runtime is closed; that a wait ends at all is not stated.
- RuntimeCycle: a launch interrupted by a process-level exception (`apps/worker/runtime.py:1296-1300`) re-raises out of the cycle and is not modelled.
- LayerTar: header decoding is an arbitrary function from a block to a member or a refusal; compression, hashing and the byte budgets of `layer_diff_id` are omitted, as is the bounded header scan.
- Spdx: JSON types and whether a text is substantive are booleans of the input, and the ecosystem identities of packages are not parsed.
- ShellLexer: digits and identifiers are ASCII; in the statements about here-documents every closing line ends with a newline; the parser above the lexer is not part of this model.
- WorkflowGraph.Collect: recipe text is expanded before the walk; a refused recipe makes its target refuse.
- DurableQueue: payload and scope checks, observability and the file system are omitted; the text of owner strings is arbitrary but never reused.
- Outbox: text clean-up and event preparation are arbitrary functions; rows are selected and locked as one step; in the progress statement the follow-up failure transaction runs right after its batch, in the exactly-once statement at any time.
- LocalRunner: stages, progress and results are omitted and job ids are any strings; a waiting worker is one that calls again, and a caller cut down by a process-level exception is one that never finishes.
- External ingestion, the canonical facades, backups, migrations, container and registry plumbing, the web application and the command-line entry points would only add easy members.
