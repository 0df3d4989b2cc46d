# Verification of the Florence-2 inference server

A Dafny model of the server's job protocol and of the algorithms around it, with proofs of what they promise.
`dafny verify dfyconfig.toml` checks everything.

## What is modelled

**The job protocol** (`Protocol.dfy` and the files named after it). Submit handlers, worker loops, graceful shutdown,
crashes, restarts and restarts that crash part-way are one transition system, interleaved in any order, with any number
of handlers and workers. Every lock region, log append, queue operation and atomic counter update is a step of its own;
an async handler is cut at its awaits, and may be cancelled at any of them by the request timeout
(`src/api.rs:63-68`). A timed-out blocking task stays behind as a detached task that still owns its sessions. The history
fields (`used`, `accepted`, `truncated`, `evicted`, `tally`, and the tickets) are read by no step except to keep ids fresh
and to say how far a handler has come. `WorkerLoop.dfy` and `SubmitHandler.dfy` restate the two sides as straight-line
imperative code over the shared objects and prove that each line takes exactly the protocol's steps. A process that
exits before its worker loops have ended, as a graceful shutdown may, is a crash.

**The two logs and the restart** (`MetadataLog.dfy`, `CrashRecovery.dfy`, `JobTables.dfy`, `Store.dfy`, `Retention.dfy`).
`Store.MetadataStore` is the restart as it is written, loop by loop; a ghost history records every durable state it
passes through, and those states are the crash points the theorems quantify over. Map iteration order is arbitrary, so a
"most recent" selection is a relation: ties between equal stamps may fall either way.

**The OCR scanner** (`Text.dfy`, `Decimals.dfy`, `OcrRegions.dfy`, `OcrMeaning.dfy`, `OcrBoxes.dfy`), **greedy decoding with a cache**
(`Tensors.dfy`, `Decoding.dfy`), **the rate limiter** (`RateLimits.dfy`), **webhook delivery** (`Webhooks.dfy`),
**task specifications** (`Tasks.dfy`), **image layout** (`ImageLayout.dfy`), **counters** (`ServerState.dfy`),
**sessions** (`ModelSessions.dfy`) and **API key comparison** (`Security.dfy`).

Assumptions: ids are fresh, a log line is appended and a file renamed atomically, and clocks do not run backwards. The
three decoder graphs are function parameters; the contract on them (`Decoding.Contract`) says that the merged graph on
the cache of a prefix and one more token gives the logits and the decoder cache of the full graph on the longer prefix,
and that encoder caches do not depend on the prefix. `Decoding.ContractSatisfiable` shows that the contract can be met.

## Where an expected property fails

Each failure has a witness, and each property its exact condition.

- The OCR scan does not always terminate: on a malformed `<loc_` the cursor stays where it is
  (`OcrRegions.BareOpenNeverHalts`). It terminates iff every `<loc_` opens a well-formed token
  (`OcrRegions.HaltsIffAllOpensGood`).
- A terminal status is visible before it is durable (`ProtocolWitnesses.TerminalBeforeDurable`). What a client sees is
  what a restart reports iff the results log has the line, or the record is itself the restart failure of a logged
  submission (`ProtocolTheorems.TerminalDurableIff`). Besides the gap before the append this covers a failed append, and
  a restart whose table keeps records that its compaction has just dropped because the job limit is the larger one. For
  a job this process accepted, the line is there iff its worker is past the append and no append of it failed
  (`Durability.FinishedDurableIff`).
- A cancelled or failed submission leaves a queued record nobody will work on (`ProtocolWitnesses.OrphanReachable`). A
  queued record is in that state iff its handler gave up (`Orphans.OrphanIff`, `Orphans.OrphanIffGaveUp`), and then for
  good (`Orphans.OrphanForever`).
- `jobs_timed_out` can stand above `jobs_failed` (`ProtocolWitnesses.TimeoutCountedBeforeFailure`). At one instant it
  does not iff at most as many workers stand between their two bumps as other failures have been counted
  (`MetricsOrder.TimeoutsWithinFailuresIff`). A snapshot loads `jobs_failed` first and `jobs_timed_out` later, so it can
  show the same with no worker between its bumps at either load (`ProtocolWitnesses.TornSnapshot`); for what a snapshot
  shows, `MetricsOrder.SnapshotWithinFailuresIff` adds the timeouts counted between the two loads.
- Waiting exactly `retry_after` seconds is not always enough (`RateLimits.RetryAfterTooShort`);
  `RateLimits.RetryAfterSufficesIff` says when it is.
- A second restart can return a smaller table than the first, from logs of a real run
  (`RestartWitness.SecondRestartSmaller`); `CrashRecovery.SecondLoadSizeIff` and `CrashRecovery.SecondLoadSameIff` say
  when it does not.
- A worker's job can be gone when the worker marks it running or finishes it (`EvictionWitness.MissingReachable`), iff
  retention evicted it (`ProtocolTheorems.MissingMeansEvicted`).

Emptying the submissions log before rewriting the results log would lose a job whose only terminal line is a submission
(`MetadataLog.SubmissionsRenameSafeIff`). The server never writes one (`ProtocolInvariants.LogsRedundant`).

The rate limiter counts in fixed windows: sixty seconds admit at most twice the limit
(`RateLimits.AtMostTwiceTheLimit`), some trace reaches that (`RateLimits.TwiceTheLimitReached`), and an interval inside
which no window opens admits at most the limit itself (`RateLimits.NoOpeningInside`).

## Model

| member | source | states |
|---|---|---|
| `Retention.RecentRecords` | src/jobs/store.rs:117-124 | Returns `min(limit, n)` distinct entries of the map in ascending `updated_at`, and no entry left out is newer than one returned. |
| `Retention.SortByUpdatedAt` | src/jobs/store.rs:119 | An ascending rearrangement: the same records, each once. |
| `Retention.Values` | src/jobs/store.rs:118 | Every map entry exactly once, in whatever order the map yields. |
| `Retention.RecentListKeeps` | src/jobs/store.rs:108-114 | The ids of a most-recent list are a most-recent selection of the table. |
| `Retention.EvictionNeedsNewerRecords` | src/jobs/store.rs:101-115 | A record is dropped only when exactly `limit` others stay, all with stamps no older than its own. |
| `Retention.NothingDropped` | src/jobs/store.rs:101-115 | A table within its limit is left as it is. |
| `Retention.SelectionUnique` | src/jobs/store.rs:117-124 | With distinct stamps, map iteration order cannot influence which records are kept. |
| `Retention.SelectionNests` | src/jobs/store.rs:36-39 | Selecting from a larger selection is the same as selecting from the table directly. |
| `MetadataLog.LoadedMeaning` | src/jobs/store.rs:14-15 | After reading both logs an id is known iff some line mentions it; its last results line wins, else its last submissions line. |
| `MetadataLog.AppendsKeepOutcomes` | src/jobs/store.rs:17-34 | After any prefix of the recovery appends, the logs still give every job the same status, error and result. |
| `MetadataLog.RecoveredMeaning` | src/jobs/store.rs:17-34 | Once all are appended every job is terminal: those that were are unchanged; the others keep id, creation time, submission and result, and get status failed, the restart error and a stamp no older than the restart. |
| `MetadataLog.CompactionEmptiesSubmissions` | src/jobs/store.rs:70-83 | Compaction after recovery leaves no submission lines, and reloading its results log gives back exactly the selection. |
| `MetadataLog.PartitionMeaning` | src/jobs/store.rs:76-78 | Every record is in exactly one half, unfinished or finished. |
| `MetadataLog.PartitionAscending` | src/jobs/store.rs:76-78 | Both halves keep the order. |
| `MetadataLog.SubmissionsRenameSafeIff` | src/jobs/store.rs:79-82 | A crash between the two renames preserves every outcome iff no job's only terminal line is in the submissions log. |
| `CrashRecovery.InterruptedLoad` | src/jobs/store.rs:12-42 | Whatever prefix of a restart's writes happened: before the final rename every outcome is unchanged, after it exactly the most recent remain. |
| `CrashRecovery.VanishOnlyByTruncation` | src/jobs/store.rs:70-83 | A job disappears only in the results rename, with compaction on, behind `metadata_limit` records no older than it. |
| `CrashRecovery.AttemptsKeepOutcomes` | src/jobs/store.rs:12-42 | Any number of crashing restarts in a row, even with changing limits, changes no outcome, and loses none while the records fit or compaction is off. |
| `CrashRecovery.CompleteLoadReports` | src/jobs/store.rs:12-42 | A restart that completes reports, for each job it keeps, the outcome the logs held when it began. |
| `CrashRecovery.CrashSafeRecovery` | src/jobs/store.rs:12-42 | However many restarts crash first, every surviving job has the status, error and result that an uninterrupted restart would have given it. |
| `CrashRecovery.SecondLoadSameIff` | src/jobs/store.rs:36-41 | With distinct stamps a second restart returns the same table iff compaction is off, the job limit is within the metadata limit, or the records fitted anyway. |
| `CrashRecovery.SecondLoadSizeIff` | src/jobs/store.rs:36-41 | Whatever the stamps, a second restart never returns more records, and as many iff that same condition holds. |
| `RestartWitness.SecondRestartSmaller` | src/jobs/store.rs:36-41 | From the logs of a real run, under one pair of limits, the second restart forgets a job the first reported. |
| `JobTables.JobTable.LoadRecords` | src/jobs/store.rs:44-68 | Reading a log is replaying its lines in order over the map, the last line for an id winning. |
| `JobTables.JobTable.RecoverUnfinished` | src/jobs/store.rs:17-34 | Fails every queued or running job exactly once, in any order, changing its status, error and stamp and nothing else, and leaves the table that the extended log would load. |
| `JobTables.RecoveryComplete` | src/jobs/store.rs:17-34 | In-memory recovery and reloading the log with the recovered lines appended agree. |
| `JobTables.JobTable.MarkRunning` | src/jobs/worker.rs:296-309 | A known job gets the running status and the stamp, nothing else of it and no other job changes; a missing job changes nothing. |
| `JobTables.JobTable.FinishLocked` | src/jobs/worker.rs:319-340 | Success replaces result and clears the error; failure sets the error and keeps any result; a missing job yields nothing to persist. |
| `JobTables.JobTable.RetainRecent` | src/jobs/store.rs:101-115 | The table becomes a most-recent selection of itself; a limit of zero empties it. |
| `Store.MetadataStore.Partition` | src/jobs/store.rs:76-78 | Splits a selection into unfinished and finished records, order kept. |
| `Store.MetadataStore.CompactMetadata` | src/jobs/store.rs:70-83 | With limit zero the disk is untouched; otherwise exactly two durable states follow, submissions renamed first, results second. |
| `Store.MetadataStore.LoadJobs` | src/jobs/store.rs:12-42 | Passes through exactly the durable states of the described run, in order, and returns a most-recent selection of the recovered records, each differing from its log line at most in status, error and stamp. |
| `WorkerLoop.TakeCounts` | src/jobs/worker.rs:149-231 | Recording an ending takes one protocol step per counter, and ends with all of them recorded. |
| `WorkerLoop.WorkerRuntime.InitializeWorker` | src/jobs/worker.rs:233-270 | A load is the protocol's load or its failure: a ready worker with all five sessions, or a failed one for good. |
| `WorkerLoop.WorkerRuntime.LeaveQueue` | src/jobs/worker.rs:70-77 | One loop leaves service, and goes on to reload iff it must. |
| `WorkerLoop.WorkerRuntime.ReportsReady` | src/state.rs:117-119 | The readiness answer is yes iff some loop is in service. |
| `WorkerLoop.WorkerRuntime.FinishJob` | src/jobs/worker.rs:311-365 | Lock region, append (or failed append), webhook and retention are exactly the protocol's steps; the one record stored, logged and sent says how the inference ended, with the returned result, the error, or the timeout in seconds; an evicted job leaves no trace. |
| `WorkerLoop.WorkerRuntime.StartJob` | src/jobs/worker.rs:95-147 | From receipt to the running blocking task: one start counted, the job marked, all sessions lent, none kept. |
| `WorkerLoop.WorkerRuntime.EndJob` | src/jobs/worker.rs:149-231 | The sessions come back iff the thread returned, and exactly the counters owed are bumped, each as a protocol step. |
| `WorkerLoop.WorkerRuntime.ProcessRequest` | src/jobs/worker.rs:95-231 | However the blocking thread ends, the request is a run of the protocol, and what is stored, logged and sent says so; the worker restarts iff it timed out or failed to join, and otherwise has all its sessions back. |
| `SubmitHandler.AppState.LogSubmission` | src/jobs/queue.rs:31-49 | A bad task or full queue changes nothing; a failed append leaves the record in the table; success logs it; each as protocol steps. |
| `SubmitHandler.AppState.SendOrRollBack` | src/jobs/queue.rs:51-78 | From any state of the queue: accepted iff there is a receiver and room; otherwise the record is out of the table and a failed line with the reason and the moment is logged, closed reported before full. |
| `SubmitHandler.AppState.RollBack` | src/jobs/queue.rs:117-138 | Withdraws the record, then appends its failed line; an append error leaves it withdrawn and unlogged. |
| `ProtocolInvariants.SubmitFrame` | src/jobs/queue.rs:31-78 | A handler's step changes nothing about any other job, in memory or on disk. |
| `ProtocolInvariants.SubmitOwn` | src/jobs/queue.rs:31-78 | Every handler step, cancellations included, keeps its own job's table entry, log lines and stage consistent. |
| `ProtocolInvariants.WorkFrame` | src/jobs/worker.rs:59-365 | A worker's step changes nothing about any other job, except that retention may evict it. |
| `ProtocolInvariants.WorkOwn` | src/jobs/worker.rs:95-365 | Every worker step keeps its own job's table entry, log lines and stage consistent. |
| `ProtocolInvariants.StepKeepsJobs` | src/jobs/worker.rs:59-365 | Every event, including crashes and restarts cut off anywhere, keeps the job invariant: tickets, table, queue, holders and logs agree for every id. |
| `ProtocolInvariants.LogsRedundant` | src/jobs/queue.rs:117-138 | The logs the server writes never leave a job's only terminal line in the submissions log. |
| `ProtocolTheorems.JobConservation` | src/jobs/queue.rs:51-77 | In every reachable state an accepted job is queued once, held by exactly one worker, or completed, and no other job is any of these. |
| `ProtocolTheorems.OneTerminalLinePerJob` | src/jobs/worker.rs:311-345 | Across all runs, crashes and restarts the results log holds terminal records only and at most one per id, timed-out and rolled-back jobs included. |
| `Identity.SubmissionNeverChanges` | src/jobs/store.rs:12-42 | Over any run, crashes and restarts included, every record and log line of a job has the creation time, image, task and webhook it was submitted with. |
| `Endings.FinishStepTells` | src/jobs/worker.rs:319-340 | The lock region records how the inference ended, stamps the record, and changes nothing else of the job. |
| `Endings.RecordedAsEnded` | src/jobs/worker.rs:149-365 | Whatever happens after an inference ends, table and results log never say anything else of the job than how it ended: the returned result or error, the timeout in seconds, or the join error. |
| `QueueBound.QueueWithinCapacity` | src/jobs/queue.rs:51-61 | However many handlers found room at once, the queue never holds more than its capacity. |
| `ProtocolTheorems.EventForward` | src/jobs/worker.rs:296-339 | One step moves a job at most one stage forward, and a job that leaves the table is retired. |
| `ProtocolTheorems.StatusOnlyMovesForward` | src/jobs/worker.rs:296-339 | Over any run of one process: queued, running, then one frozen terminal record, or removed for good. |
| `ProtocolTheorems.RestartMeaning` | src/jobs/store.rs:12-34 | For every reachable disk: a job's results line decides its outcome, else a submission means the restart failure, else it is unknown. |
| `ProtocolTheorems.RestartBuilds` | src/jobs/store.rs:12-34 | The map before retention is that meaning, and holds each results line verbatim. |
| `ProtocolTheorems.RestartServes` | src/jobs/store.rs:39-41 | The table a restarted process serves is a most-recent selection of that map, record for record, with the logged outcomes. |
| `ProtocolTheorems.LoggedJobUnchangedByCrash` | src/jobs/worker.rs:342-356 | A job in the table whose line reached the log is restored record for record by crash and restart. |
| `ProtocolTheorems.TerminalDurableIff` | src/jobs/worker.rs:319-345 | A terminal record in memory is what a restart would report iff its results line is logged, or it is the restart failure of a logged submission. |
| `Durability.RunAppends` | src/jobs/worker.rs:341-355 | Over any run of one process, a job whose worker gets past the append is in the log iff that append did not fail. |
| `Durability.FinishedDurableIff` | src/jobs/worker.rs:319-355 | A finished job of this process is in the log iff its worker is past the append and the append worked; otherwise a restart reports it only if it looks like a restart failure. |
| `ProtocolTheorems.CrashSafeServer` | src/jobs/store.rs:12-42 | From the logs of any run, however many restarts crash first, surviving jobs keep their outcome, and all survive while they fit or compaction is off. |
| `ProtocolTheorems.AcceptedIsDurable` | src/jobs/queue.rs:47-53 | A job for which a handler returned success is known to the logs, or was lost by a restart; the next two rows say how that can only happen. |
| `ProtocolTheorems.OnlyCompactionTruncates` | src/jobs/store.rs:70-83 | An event that loses a job is a restart that got past its results rename with compaction on, and kept exactly the limit of records, all no older. |
| `ProtocolTheorems.AcceptedLostOnlyByCompaction` | src/jobs/queue.rs:47-53 | For every run, an accepted job the logs do not know was dropped by such a compaction in that run. |
| `ProtocolTheorems.NoCompactionNoLoss` | src/jobs/store.rs:70-74 | With the metadata limit at 0 throughout, no accepted job is ever lost, over any number of crashes. |
| `ProtocolTheorems.MissingMeansEvicted` | src/jobs/worker.rs:306-308 | A worker's job is missing from the table iff retention evicted it. |
| `EvictionWitness.MissingReachable` | src/jobs/worker.rs:306-308 | Both missing branches are reachable: finishing one job evicts another that is still queued. |
| `ProtocolTheorems.EvictionBehindNewer` | src/jobs/worker.rs:356-360 | Only retention evicts, and only when `job_retention_limit` other jobs with stamps no older stay. |
| `ProtocolTheorems.EnoughRoomNothingMissing` | src/jobs/worker.rs:296-309 | Over a run in which no more jobs were submitted than the limit, the missing branches are never taken. |
| `OutcomeSoundness.StepKeepsSound` | src/jobs/worker.rs:296-340 | Every event keeps results with successes and errors with failures, in memory and in both logs. |
| `OutcomeSoundness.EveryRecordIsSound` | src/jobs/worker.rs:319-345 | In every reachable state each record and each log line has a result iff it succeeded and an error iff it failed, restarts and rollbacks included. |
| `ShutdownDrain.StepKeepsDrain` | src/jobs/worker.rs:81-93 | Once the senders are gone no handler is running, and a loop that left for want of work left an empty queue. |
| `ShutdownDrain.DrainedMeansCompleted` | src/jobs/worker.rs:59-93 | If every loop has ended and one of them ran out of work, every accepted job has been completed. |
| `ProtocolWitnesses.OrphanReachable` | src/jobs/queue.rs:42-49 | A queued record with no queue entry and no worker is reachable. |
| `Orphans.OrphanIff` | src/jobs/queue.rs:42-49 | A queued record has no queue entry, no worker and no running handler iff its handler gave up. |
| `Orphans.RunLeavesBehind` | src/jobs/queue.rs:42-72 | Over any run of one process, exactly the jobs whose handler gave up end in that state, and none leaves it. |
| `Orphans.OrphanIffGaveUp` | src/jobs/queue.rs:42-72 | Since its process started, a queued record is an orphan iff its handler gave up: without that there are none. |
| `Orphans.OrphanForever` | src/jobs/queue.rs:42-49 | An orphan is never queued, never held, and its record does not change until it is evicted. |
| `Orphans.OrphanAfterRestart` | src/jobs/store.rs:12-34 | A restart reports an orphan as failed iff its submission was logged, and otherwise forgets it. |
| `ProtocolWitnesses.TerminalBeforeDurable` | src/jobs/worker.rs:319-342 | A terminal status can be observed that a crash would replace. |
| `ProtocolWitnesses.TimeoutCountedBeforeFailure` | src/state.rs:201-204 | The timeout counter can be read above the failure counter. |
| `MetricsOrder.FailuresOverTimeouts` | src/state.rs:193-204 | In every reachable state `jobs_failed - jobs_timed_out` is the other failures counted less the workers between their two bumps, both counters taken at one instant. |
| `MetricsOrder.TimeoutsWithinFailuresIff` | src/state.rs:193-204 | At one instant the timeouts stay within the failures iff no more workers stand between their bumps than other failures have been counted. |
| `MetricsOrder.TimeoutsWithinFailures` | src/jobs/worker.rs:160-162 | At one instant they stay within whenever no worker stands between its two bumps. |
| `MetricsOrder.SnapshotWithinFailuresIff` | src/state.rs:225-241 | A snapshot, which loads the two counters one after the other, shows timeouts within failures iff the timeouts counted between the loads and the workers between their bumps at the first do not outnumber the other failures counted by then. |
| `MetricsOrder.QuietSnapshot` | src/state.rs:225-241 | It does whenever no timeout is counted between the loads and no worker stands between its bumps at the first. |
| `ProtocolWitnesses.TornSnapshot` | src/state.rs:230-231 | A snapshot can show one timeout and no failure with no worker between its bumps at either load. |
| `ServerState.AppMetrics.RecordEnding` | src/jobs/worker.rs:149-231 | The recording calls on each path are exactly the counters that ending owes. |
| `ServerState.AppMetrics.RecordJobTimedOut` | src/state.rs:201-204 | A timeout is counted as a timeout and then as a failure. |
| `ServerState.EndingIsCountedOnce` | src/jobs/worker.rs:149-231 | Every ending adds exactly one success or failure, a restart iff the worker reloads, and a timeout iff it timed out. |
| `PoolInvariants.PoolCounters` | src/state.rs:84-107 | `ready` counts the loops between `mark_ready` and `mark_stopped`, `failed` those ended by a failed load, and their sum stays within the pool. |
| `PoolInvariants.ReadyIff` | src/state.rs:117-119 | The server calls itself ready iff some loop is in service. |
| `PoolInvariants.StopNeverUnderflows` | src/state.rs:101-107 | The checked subtraction never meets zero. |
| `PoolInvariants.SessionsAvailable` | src/inference.rs:185-209 | A worker waiting on the queue holds all five sessions, and so does every inference: "session is unavailable" cannot arise. |
| `PoolInvariants.SessionsExclusive` | src/inference.rs:185-209 | No session handle is reachable from two workers, two abandoned tasks, or one of each. |
| `Reloading.OnlyLoadingEndsIt` | src/jobs/worker.rs:59-79 | A worker that must reload receives nothing, and only its own model load ends that. |
| `Reloading.ReloadBeforeReceive` | src/jobs/worker.rs:59-231 | In every run, a worker whose job timed out or failed to join loads its model before it receives another. |
| `PoolInvariants.MetricsConservation` | src/state.rs:181-208 | At one instant, jobs started = succeeded + failed + in flight + ended but not yet counted; timeouts never exceed failures counted or owed. |
| `PoolInvariants.MetricsAtRest` | src/state.rs:181-208 | At an instant with no worker mid-recording, the counters balance exactly and restarts = timeouts + failed joins. |
| `ModelSessions.FlorenceWorker.TakeForBlocking` | src/inference.rs:185-209 | Every session moves into the copy and none stays behind. |
| `OcrRegions.ParseLocTokenMeaning` | src/inference/postprocess.rs:58-67 | A token parses iff it is `<loc_`, an optional plus, digits worth at most 65535, and `>`. |
| `OcrRegions.FindOpenMeaning` | src/inference/postprocess.rs:33 | The search finds the first occurrence, and finds one if there is one. |
| `OcrRegions.MalformedIsFixedPoint` | src/inference/postprocess.rs:33-53 | On a malformed opening an iteration leaves the remaining text as it was. |
| `OcrRegions.WellFormedProgress` | src/inference/postprocess.rs:33-53 | On a well-formed opening an iteration consumes at least seven characters. |
| `OcrRegions.ScanIffHalts` | src/inference/postprocess.rs:29-56 | The scan has a value iff some number of loop iterations exits. |
| `OcrRegions.HaltsIffAllOpensGood` | src/inference/postprocess.rs:29-56 | The loop exits iff every `<loc_` in the text opens a well-formed token. |
| `OcrRegions.BareOpenNeverHalts` | src/inference/postprocess.rs:29-56 | On `<loc_` alone the loop never exits. |
| `OcrRegions.ScanRendered` | src/inference/postprocess.rs:29-56 | Scanning rendered segments has a value, the items of the segments in order. |
| `OcrMeaning.ScanCollects` | src/inference/postprocess.rs:29-67 | That value is one item for each segment with at least four numbers, its text trimmed and its numbers cut off at 999, and nothing for the others. |
| `OcrMeaning.ItemsTakenFromText` | src/inference/postprocess.rs:33-53 | From any text on which the loop exits, every item's text is a stretch up to the next opening, trimmed, with at least four numbers, all within 999. |
| `OcrRegions.RoundTrip` | src/inference/postprocess.rs:29-67 | Trimmed texts without `<loc_` (nonempty after the first) and an even number, at least four, of numbers within 999 come back verbatim. |
| `Decimals.ParseU16Meaning` | src/inference/postprocess.rs:63-64 | Checked digit-by-digit parsing accepts exactly the literals that fit 16 bits, and returns their value. |
| `Decimals.PrintParse` | src/inference/postprocess.rs:63-64 | Printing a 16-bit number and parsing it gives it back. |
| `Text.TrimIsTrimmed` | src/inference/postprocess.rs:35 | Trimming leaves no whitespace at either end. |
| `Text.TrimKeepsMiddle` | src/inference/postprocess.rs:35 | Trimming keeps one stretch of the text and drops only whitespace around it. |
| `Text.TrimEmptyIff` | src/types/task.rs:239-242 | Trimming leaves nothing iff the text is blank. |
| `OcrBoxes.ScaleLocBounds` | src/inference/postprocess.rs:113-120 | Scaled coordinates stay within `[0, side]` and half a thousandth of the exact value; 0 and 999 hit the edges. |
| `OcrBoxes.ScaleLocStrict` | src/inference/postprocess.rs:113-120 | For a nonempty side, scaling is strictly increasing on 0..999. |
| `OcrBoxes.RoundTies` | src/inference/postprocess.rs:118-120 | Ties are rounded away from zero. |
| `OcrBoxes.DifferenceExact` | src/inference/postprocess.rs:98-101 | Rounding the difference of two coordinates changes nothing. |
| `OcrBoxes.PointsAt` | src/inference/postprocess.rs:74-83 | Point `k` is made of numbers `2k` and `2k + 1`, scaled by width and height. |
| `OcrBoxes.Extremes` | src/inference/postprocess.rs:84-95 | The fold ends with the tightest box: it holds every point and each edge touches one. |
| `OcrBoxes.TightUnique` | src/inference/postprocess.rs:84-95 | There is only one tightest box. |
| `OcrBoxes.OcrRegionItem` | src/inference/postprocess.rs:69-111 | No region below two points; otherwise the text, the numbers, their points, the tightest box and its exact width and height. |
| `OcrBoxes.ReadTokens` | src/inference/postprocess.rs:37-45 | The inner loop returns exactly the contiguous run of tokens and where it ends. |
| `OcrBoxes.ParseOcrRegions` | src/inference/postprocess.rs:29-56 | On every text on which the loop exits, it returns the region of each scanned item, in order. |
| `Tensors.MaxBy` | src/inference/tensor.rs:116-122 | The last index of the maximum. |
| `Tensors.ArgmaxLastToken` | src/inference/tensor.rs:91-123 | Succeeds iff the shape has three axes, the last two nonempty, the products fit and the data reaches that far. |
| `Tensors.ArgmaxMeaning` | src/inference/tensor.rs:91-123 | The token is the last maximum among the logits of the last position. |
| `Decoding.CacheFromOutputs` | src/inference.rs:658-681 | Succeeds iff all four tensors of every layer are present, and then mirrors them. |
| `Decoding.RunCachedDecoder` | src/inference.rs:577-655 | A cached step gives the logits of a full run on the longer prefix and leaves a cache that mirrors that run. |
| `Decoding.GenerateOnce` | src/inference.rs:354-383 | The cached loop returns the greedy ids up to the first end marker or the limit, and fails iff some greedy prefix within the limit has a failed run, no logits or unusable ones: exactly what re-running the full graph at every step gives. |
| `Decoding.GeneratedShape` | src/inference.rs:354-383 | The end marker occurs only first or last; there are 2 to `max_new_tokens + 1` ids, fewer only after an end marker. |
| `Decoding.FullDecodeIff` | src/inference.rs:356-383 | The reference decoder returns ids iff each is the last maximum of a full run's last logits over those before it, and they stop at the first end marker or at the limit. |
| `Decoding.FullDecodeFailsIff` | src/inference.rs:356-383 | It fails iff some such prefix within the limit, not ended yet, has no next token. |
| `Decoding.GenerationUnique` | src/inference.rs:354-383 | There is at most one generation, and none if decoding breaks down. |
| `Decoding.NamesInjective` | src/inference.rs:714-731 | No two cache tensors share a graph name. |
| `RateLimits.RateLimiter.Check` | src/state.rs:133-160 | One call rolls an expired window, refuses at the limit with the remaining whole seconds (at least one), and counts otherwise. |
| `RateLimits.TraceInv` | src/state.rs:133-160 | After any timed trace the count is exactly the admissions since the window opened. |
| `RateLimits.WindowCount` | src/state.rs:133-160 | Each window admits at most the limit. |
| `RateLimits.AtMostTwiceTheLimit` | src/state.rs:133-160 | Any half-open sixty-second interval of any trace admits at most twice the limit. |
| `RateLimits.TwiceTheLimitReached` | src/state.rs:133-160 | For every limit some trace reaches that bound. |
| `RateLimits.NoOpeningInside` | src/state.rs:133-160 | A sixty-second interval inside which no window opens admits at most the limit. |
| `RateLimits.LimitedExactly` | src/state.rs:149-156 | A call is refused iff the window is open and has admitted exactly the limit. |
| `RateLimits.RetryAfterMeaning` | src/state.rs:149-156 | A refusal advises the whole seconds left in the window, and one if less is left. |
| `RateLimits.ZeroLimitAdmitsAll` | src/state.rs:134-136 | With a limit of zero every call of every trace is admitted. |
| `RateLimits.RetryAfterSufficesIff` | src/state.rs:149-156 | Waiting exactly as advised is enough iff the rest of the window is whole seconds or under one second. |
| `RateLimits.RetryAfterTooShort` | src/state.rs:149-156 | A call half a second into a full window is told to wait 59 seconds, does, and is refused again. |
| `RateLimits.OneSecondMoreSuffices` | src/state.rs:149-156 | One second more is always enough if nobody else calls. |
| `Webhooks.WebhookClient.Deliver` | src/jobs/webhook.rs:103-148 | Attempts 1 to k carry one event, k is the first success or the maximum, k - 1 pauses lie between them, and a dead letter is tried iff all failed, with the last error. |
| `Webhooks.RequestsMeaning` | src/jobs/webhook.rs:65-101 | The requests of one delivery are attempts 1, 2, ... of the reported event, and carry exactly the given record. |
| `Webhooks.WebhookClient.SendWebhook` | src/jobs/webhook.rs:199-239 | A failure is counted iff there is a URL and every allowed attempt failed. |
| `Webhooks.LastAttempt` | src/jobs/webhook.rs:111-129 | All attempts before the last failed, and the last succeeded or was the last allowed. |
| `Webhooks.MultiplierIsPower` | src/jobs/webhook.rs:258-261 | The shift never overflows: the multiplier is a power of two up to 65536. |
| `Webhooks.DelaysGrowToACap` | src/jobs/webhook.rs:258-261 | Delays never shrink, never exceed 65536 times the first, and never exceed the largest duration. |
| `Webhooks.WaitsMeaning` | src/jobs/webhook.rs:122-125 | The k-th pause is the initial delay doubled k - 1 times, at most sixteen, and cut off at the largest duration; there is none if the initial delay is zero. |
| `Webhooks.TotalBackoff` | src/jobs/webhook.rs:111-129 | Without saturation the total backoff is the initial delay times the closed-form sum of capped powers of two. |
| `Tasks.NamesDistinct` | src/types/task.rs:143-163 | No two prompts share a name. |
| `Tasks.FindPrompt` | src/types/task.rs:130-141 | Finds a prompt of the table with the given name, or there is none. |
| `Tasks.AcceptedIff` | src/types/task.rs:40-57 | Exactly which requests are accepted and as what: type and prompt by their trimmed names with defaults and the second spelling, and the text trimmed, kept iff it is not blank. |
| `Tasks.RoundTrip` | src/types/task.rs:40-66 | Re-parsing the names and text of an accepted request gives the same specification. |
| `Tasks.SubmittedTaskIsValid` | src/jobs/queue.rs:80-92 | `InvalidTask` cannot arise for a record built from an accepted request. |
| `Tasks.NormalizeTwice` | src/types/task.rs:239-242 | Normalising a text twice is normalising it once. |
| `Tasks.NormalizeKeeps` | src/types/task.rs:239-242 | The text is kept, trimmed, iff it has a character that is not whitespace. |
| `Tasks.TokenResolves` | src/inference.rs:774-871 | Every single-task token has a prompt, and fails only for want of a text, exactly for the prompts that quote one. |
| `Tasks.TokenFollowsName` | src/types/task.rs:165-185 | But for object detection, a token has the length and initial of its own prompt's name and of no other's. |
| `Tasks.TokensDistinct` | src/types/task.rs:165-185 | No two single-task prompts share a token. |
| `Tasks.CascadeSpellsCaption` | src/types/task.rs:143-163 | A cascade's name is a caption's with a suffix. |
| `Tasks.CascadeStartsWithCaption` | src/types/task.rs:187-194 | A cascade's first token is that of the caption it is named after. |
| `Tasks.PlanFailsIff` | src/inference.rs:313-337 | For an accepted task the worker finds every token; the plan lacks a text iff the caller's is blank or absent where the prompt quotes it, or the caption its first step generates is blank, and otherwise fails only if a generation does. |
| `Tasks.CascadeResolves` | src/inference.rs:319-332 | A cascade generates the caption, then its grounding with a prompt that quotes the caption trimmed; it fails iff a generation fails or the caption is blank. |
| `ImageLayout.ToPlanar` | src/inference.rs:801-815 | For any side, every planar cell ends as the normalised sample of its pixel and channel. |
| `ImageLayout.NormaliseInverts` | src/inference.rs:799-812 | Scaling a normalised value by the deviation and shifting it by the mean gives the byte back. |
| `ImageLayout.TargetThenOrigin` | src/inference.rs:803-813 | No two samples are written to one cell: the index map has a left inverse. |
| `ImageLayout.OriginThenTarget` | src/inference.rs:803-813 | Every cell is written: the index map has a right inverse. |
| `Security.ConstantTimeEq` | src/api/security.rs:95-104 | True iff the byte strings are equal, in a number of rounds that depends on the lengths alone. |
| `Security.ApiKeyAllowed` | src/api/security.rs:89-93 | True iff the presented key is one of the configured ones. |

## Left out

- JSON encoding and parsing, torn writes, unreadable log lines, missing files and every other file-system error except a failed append.
- HTTP routing, uploads, headers, CORS, templates, configuration loading, the Python client.
- Foreign code: ONNX sessions, the tokenizer, image decoding and resizing, execution providers. The decoder graphs are parameters.
- Binary floating point: coordinates and normalisation are exact rationals, and a logit stands for the rank of its float under `total_cmp`.
- Byte offsets: strings are sequences of characters, so "seven" counts characters, and whitespace is the Unicode White_Space property.
- The standard library's sort is stood in for by an insertion sort.
- `RateLimits.RateLimiter.Check`: takes its clock reading as a parameter; the mutex makes each call one step.
- Webhook signatures, URL redaction and timeouts: an attempt's outcome is an oracle. Webhook and image cleanup are no steps of the job protocol, which they do not affect.
- Upper bounds on `updated_at`: a recovered job's stamp is only known to be no older than the restart.
- Counters for model loading time, inference time and HTTP requests.
- The capacity error of a zero queue size, and waiting for the first worker at start-up; both happen before the protocol begins.
- `WorkerLoop.WorkerRuntime.FinishJob`: leaves out the image cleanup between the webhook and retention, which touches neither table nor logs.
- `WorkerLoop.WorkerRuntime.ProcessRequest`: is one request with nothing interleaved; interleavings are the transition system's subject.
- `clean_generated_text`, `concat_embeddings`, `tensor_metadata_f32`, device detection: independent of the results here.
