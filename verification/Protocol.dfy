/**
 * The job protocol as a transition system: submit handlers, worker loops, shutdown,
 * crashes and restarts, interleaved in any order.  Every lock region, log append,
 * queue operation and atomic counter update is one step.
 */
module Protocol {
  import opened Records
  import opened Retention
  import opened MetadataLog
  import opened CrashRecovery
  import opened JobTables
  import opened ModelSessions
  import Decimals

  datatype Config = Config(
    queueSize: nat,
    workers: nat,
    jobLimit: nat,
    metadataLimit: nat,
    jobTimeoutSeconds: nat)

  /** How far a submission has come in the life of this process. */
  datatype Ticket =
    | Checked                        // the queue was not full; nothing written yet
    | Inserted                       // in the table; submissions append under way
    | AppendAbandoned                // the handler is gone, its append may still land
    | Appended                       // logged; about to try the queue
    | Refused(message: string)       // the queue was full or closed; still in the table
    | Withdrawn(message: string)     // out of the table; results append under way
    | RefusalAbandoned(message: string)
    | Stranded                       // the handler ended; a queued record stays in the table
    | Gone                           // the handler ended; nothing stays in the table
    | InQueue
    | Held(worker: nat)
    | Completed

  /** How the wait for the blocking task ended. */
  datatype Ending = Returned(verdict: Verdict) | TimedOut | JoinFailed(message: string)

  datatype Counter = CountSucceeded | CountFailed | CountTimedOut | CountRestarts

  datatype Worker =
    | Loading                                                         // building a FlorenceWorker
    | Idle(own: Sessions)                                             // waiting on the queue
    | Received(job: JobId, own: Sessions)                             // before record_job_started
    | Started(job: JobId, own: Sessions)                              // before mark_running
    | Marked(job: JobId, own: Sessions)                               // before spawn_blocking
    | Inferring(job: JobId, own: Sessions, lent: Sessions)            // waiting for the blocking task
    | Recording(job: JobId, own: Sessions, ending: Ending, todo: seq<Counter>)
    | Persisting(job: JobId, own: Sessions, final: JobRecord, restart: bool)
    | Notifying(job: JobId, own: Sessions, restart: bool)             // appended; before retention
    | Stopping(restart: bool)                                         // before mark_stopped
    | Ended(initFailed: bool)

  function JobOf(worker: Worker): Option<JobId> {
    match worker
    case Received(job, _) => Some(job)
    case Started(job, _) => Some(job)
    case Marked(job, _) => Some(job)
    case Inferring(job, _, _) => Some(job)
    case Recording(job, _, _, _) => Some(job)
    case Persisting(job, _, _, _) => Some(job)
    case Notifying(job, _, _) => Some(job)
    case _ => None
  }

  datatype Metrics = Metrics(
    jobsStarted: nat, jobsSucceeded: nat, jobsFailed: nat, jobsTimedOut: nat, workerRestarts: nat)

  /** History only: how the started jobs ended. */
  datatype Tally = Tally(succeeded: nat, errored: nat, timedOut: nat, joinFailed: nat)

  /** The volatile half of the server: everything a crash loses. */
  datatype Server = Server(
    config: Config,
    jobs: JobMap,
    queue: seq<JobId>,
    sendersGone: bool,
    submitted: JobMap,               // the record each handler carries
    tickets: map<JobId, Ticket>,
    workers: seq<Worker>,
    loads: nat,                      // model loads so far
    detached: seq<Sessions>,         // blocking tasks nobody waits for any more
    ready: nat,
    failed: nat,
    metrics: Metrics,
    // history
    evicted: set<JobId>,
    tally: Tally)

  datatype World = World(
    disk: Disk,
    clock: Stamp,
    server: Option<Server>,
    // history
    used: set<JobId>,
    accepted: set<JobId>,            // ids for which a handler returned success
    truncated: set<JobId>)           // ids dropped from the logs by compaction

  const INITIAL := World(Disk([], []), 0, None, {}, {}, {})

  datatype SubmitStep =
    | Begin(record: JobRecord)
    | CancelChecked
    | Insert
    | AppendSubmission
    | AbandonSubmission
    | LandSubmission
    | TrySend
    | Withdraw
    | AbandonRefused
    | AppendRefusal
    | AbandonRefusal
    | LandRefusal

  datatype WorkStep =
    | LoadModel
    | LoadFails
    | Receive
    | QueueClosed
    | RecordStart
    | MarkRunning
    | Spawn
    | TaskEnds(ending: Ending)
    | CountOne
    | FinishLocked
    | AppendResult
    | FailResult
    | Retain(kept: set<JobId>)
    | MarkStopped

  datatype Event =
    | Submit(id: JobId, step: SubmitStep)
    | Work(worker: nat, work: WorkStep)
    | DropSenders
    | DetachedTaskEnds(index: nat)
    | Tick(now: Stamp)
    | Crash
    | Restart(config: Config, run: LoadRun)
    | InterruptedRestart(config: Config, run: LoadRun, writes: nat)

  const QUEUE_FULL := "inference queue became full before the job could be queued"
  const QUEUE_CLOSED := "inference queue closed before the job could be queued"

  // ----- submit handlers -----

  /** A receiver lives as long as its worker loop. */
  predicate ReceiversGone(s: Server) {
    forall w :: 0 <= w < |s.workers| ==> s.workers[w].Ended?
  }

  predicate HasTicket(s: Server, id: JobId, ticket: Ticket) {
    id in s.tickets && s.tickets[id] == ticket
  }

  predicate SubmitEnabled(w: World, s: Server, id: JobId, step: SubmitStep) {
    match step
    case Begin(record) =>
      && id !in w.used && !s.sendersGone && |s.queue| < s.config.queueSize
      && record.id == id && FreshlyQueued(record) && record.createdAt == record.updatedAt <= w.clock
    case CancelChecked => HasTicket(s, id, Checked)
    case Insert => HasTicket(s, id, Checked)
    case AppendSubmission => HasTicket(s, id, Inserted)
    case AbandonSubmission => HasTicket(s, id, Inserted)
    case LandSubmission => HasTicket(s, id, AppendAbandoned)
    case TrySend => HasTicket(s, id, Appended)
    case Withdraw => id in s.tickets && s.tickets[id].Refused?
    case AbandonRefused => id in s.tickets && s.tickets[id].Refused?
    case AppendRefusal => id in s.tickets && s.tickets[id].Withdrawn?
    case AbandonRefusal => id in s.tickets && s.tickets[id].Withdrawn?
    case LandRefusal => id in s.tickets && s.tickets[id].RefusalAbandoned?
  }

  function SetTicket(s: Server, id: JobId, ticket: Ticket): Server {
    s.(tickets := s.tickets[id := ticket])
  }

  function WithServer(w: World, s: Server): World {
    w.(server := Some(s))
  }

  function LogSubmission(w: World, record: JobRecord): World {
    w.(disk := Disk(w.disk.submissions + [record], w.disk.results))
  }

  function LogResult(w: World, record: JobRecord): World {
    w.(disk := Disk(w.disk.submissions, w.disk.results + [record]))
  }

  /** The record a handler carries; looked up only for ids that have begun. */
  function CarriedRecord(s: Server, id: JobId): JobRecord {
    if id in s.submitted then s.submitted[id]
    else JobRecord(id, JobStatus.Queued, 0, 0, Submission("", "", "", "", None, None), None, None)
  }

  function RefusalMessage(ticket: Ticket): string {
    match ticket
    case Refused(message) => message
    case Withdrawn(message) => message
    case RefusalAbandoned(message) => message
    case _ => ""
  }

  /** `try_send`: a closed channel is reported before a full one. */
  function TrySendOn(w: World, s: Server, id: JobId): World {
    if ReceiversGone(s) then
      WithServer(w, SetTicket(s, id, Refused(QUEUE_CLOSED)))
    else if |s.queue| >= s.config.queueSize then
      WithServer(w, SetTicket(s, id, Refused(QUEUE_FULL)))
    else
      WithServer(w, SetTicket(s, id, InQueue).(queue := s.queue + [id])).(accepted := w.accepted + {id})
  }

  function ApplySubmit(w: World, s: Server, id: JobId, step: SubmitStep): World
    requires SubmitEnabled(w, s, id, step)
  {
    match step
    case Begin(record) =>
      WithServer(w, SetTicket(s, id, Checked).(submitted := s.submitted[id := record])).(used := w.used + {id})
    case CancelChecked => WithServer(w, SetTicket(s, id, Gone))
    case Insert => WithServer(w, SetTicket(s, id, Inserted).(jobs := s.jobs[id := CarriedRecord(s, id)]))
    case AppendSubmission => LogSubmission(WithServer(w, SetTicket(s, id, Appended)), CarriedRecord(s, id))
    case AbandonSubmission => WithServer(w, SetTicket(s, id, AppendAbandoned))
    case LandSubmission => LogSubmission(WithServer(w, SetTicket(s, id, Stranded)), CarriedRecord(s, id))
    case TrySend => TrySendOn(w, s, id)
    case Withdraw =>
      WithServer(w, SetTicket(s, id, Withdrawn(RefusalMessage(s.tickets[id]))).(jobs := s.jobs - {id}))
    case AbandonRefused => WithServer(w, SetTicket(s, id, Stranded))
    case AppendRefusal =>
      LogResult(WithServer(w, SetTicket(s, id, Gone)),
                Unqueued(CarriedRecord(s, id), RefusalMessage(s.tickets[id]), w.clock))
    case AbandonRefusal => WithServer(w, SetTicket(s, id, RefusalAbandoned(RefusalMessage(s.tickets[id]))))
    case LandRefusal =>
      LogResult(WithServer(w, SetTicket(s, id, Gone)),
                Unqueued(CarriedRecord(s, id), RefusalMessage(s.tickets[id]), w.clock))
  }

  // ----- worker loops -----

  function Owing(ending: Ending): seq<Counter> {
    match ending
    case Returned(Success(_)) => [CountSucceeded]
    case Returned(Failure(_)) => [CountFailed]
    case TimedOut => [CountTimedOut, CountFailed, CountRestarts]
    case JoinFailed(_) => [CountFailed, CountRestarts]
  }

  predicate Restarts(ending: Ending) {
    ending.TimedOut? || ending.JoinFailed?
  }

  function VerdictOf(ending: Ending, config: Config): Verdict {
    match ending
    case Returned(verdict) => verdict
    case TimedOut => Failure("job timed out after " + Decimals.Decimal(config.jobTimeoutSeconds) + " seconds")
    case JoinFailed(message) => Failure("worker task failed: " + message)
  }

  function Bump(m: Metrics, counter: Counter): Metrics {
    match counter
    case CountSucceeded => m.(jobsSucceeded := m.jobsSucceeded + 1)
    case CountFailed => m.(jobsFailed := m.jobsFailed + 1)
    case CountTimedOut => m.(jobsTimedOut := m.jobsTimedOut + 1)
    case CountRestarts => m.(workerRestarts := m.workerRestarts + 1)
  }

  function TallyOne(t: Tally, ending: Ending): Tally {
    match ending
    case Returned(Success(_)) => t.(succeeded := t.succeeded + 1)
    case Returned(Failure(_)) => t.(errored := t.errored + 1)
    case TimedOut => t.(timedOut := t.timedOut + 1)
    case JoinFailed(_) => t.(joinFailed := t.joinFailed + 1)
  }

  /** Up to the wait for the blocking task. */
  predicate Opening(work: WorkStep) {
    || work.LoadModel? || work.LoadFails? || work.Receive? || work.QueueClosed? || work.RecordStart?
    || work.MarkRunning? || work.Spawn?
  }

  /** From the end of the blocking task to the end of the lock region. */
  predicate Finishing(work: WorkStep) {
    work.TaskEnds? || work.CountOne? || work.FinishLocked?
  }

  predicate WorkEnabled(s: Server, i: nat, work: WorkStep) {
    && i < |s.workers|
    && var worker := s.workers[i];
       match work
       case LoadModel => worker.Loading?
       case LoadFails => worker.Loading?
       case Receive => worker.Idle? && s.queue != []
       case QueueClosed => worker.Idle? && s.queue == [] && s.sendersGone
       case RecordStart => worker.Received?
       case MarkRunning => worker.Started?
       case Spawn => worker.Marked?
       case TaskEnds(ending) =>
         && worker.Inferring?
         // A missing session makes inference fail; a timeout needs a configured limit.
         && (ending.Returned? && ending.verdict.Success? ==> Complete(worker.lent))
         && (ending.TimedOut? ==> s.config.jobTimeoutSeconds > 0)
       case CountOne => worker.Recording? && worker.todo != []
       case FinishLocked => worker.Recording? && worker.todo == []
       case AppendResult => worker.Persisting?
       case FailResult => worker.Persisting?
       case Retain(kept) => worker.Notifying? && KeepsMostRecent(s.jobs, s.config.jobLimit, kept)
       case MarkStopped => worker.Stopping?
  }

  function SetWorker(s: Server, i: nat, worker: Worker): Server
    requires i < |s.workers|
  {
    s.(workers := s.workers[i := worker])
  }

  /** Back to the queue, or out of the loop to reload the model. */
  function AfterJob(own: Sessions, restart: bool): Worker {
    if restart then Stopping(true) else Idle(own)
  }

  function TaskEndsOn(s: Server, i: nat, ending: Ending): Server
    requires WorkEnabled(s, i, TaskEnds(ending))
  {
    var Inferring(job, own, lent) := s.workers[i];
    // A result hands the sessions back; a timeout leaves them with the detached task;
    // a panic drops them.
    var s' := SetWorker(s, i, Recording(job, if ending.Returned? then lent else own, ending, Owing(ending)));
    s'.(detached := if ending.TimedOut? then s.detached + [lent] else s.detached,
        tally := TallyOne(s.tally, ending))
  }

  function FinishOn(s: Server, i: nat, now: Stamp): Server
    requires WorkEnabled(s, i, FinishLocked)
  {
    var Recording(job, own, ending, _) := s.workers[i];
    if job in s.jobs then
      var jobs := FinishIn(s.jobs, job, VerdictOf(ending, s.config), now);
      SetWorker(s, i, Persisting(job, own, jobs[job], Restarts(ending))).(jobs := jobs)
    else
      // The record was evicted meanwhile: nothing is written.
      SetTicket(SetWorker(s, i, AfterJob(own, Restarts(ending))), job, Completed)
  }

  function RetainOn(s: Server, i: nat, kept: set<JobId>): Server
    requires WorkEnabled(s, i, Retain(kept))
  {
    var Notifying(job, own, restart) := s.workers[i];
    SetTicket(SetWorker(s, i, AfterJob(own, restart)), job, Completed)
      .(jobs := Restrict(s.jobs, kept), evicted := s.evicted + (s.jobs.Keys - kept))
  }

  function ApplyWork(w: World, s: Server, i: nat, work: WorkStep): World
    requires WorkEnabled(s, i, work)
  {
    var worker := s.workers[i];
    match work
    case LoadModel =>
      WithServer(w, SetWorker(s, i, Idle(FreshSessions(s.loads))).(loads := s.loads + 1, ready := s.ready + 1))
    case LoadFails => WithServer(w, SetWorker(s, i, Ended(true)).(failed := s.failed + 1))
    case Receive =>
      var s' := SetWorker(s, i, Received(s.queue[0], worker.own));
      WithServer(w, SetTicket(s', s.queue[0], Held(i)).(queue := s.queue[1..]))
    case QueueClosed => WithServer(w, SetWorker(s, i, Stopping(false)))
    case RecordStart =>
      WithServer(w, SetWorker(s, i, Started(worker.job, worker.own))
                      .(metrics := s.metrics.(jobsStarted := s.metrics.jobsStarted + 1)))
    case MarkRunning =>
      WithServer(w, SetWorker(s, i, Marked(worker.job, worker.own)).(jobs := MarkRunningIn(s.jobs, worker.job, w.clock)))
    case Spawn => WithServer(w, SetWorker(s, i, Inferring(worker.job, NO_SESSIONS, worker.own)))
    case TaskEnds(ending) => WithServer(w, TaskEndsOn(s, i, ending))
    case CountOne =>
      WithServer(w, SetWorker(s, i, worker.(todo := worker.todo[1..])).(metrics := Bump(s.metrics, worker.todo[0])))
    case FinishLocked => WithServer(w, FinishOn(s, i, w.clock))
    case AppendResult =>
      LogResult(WithServer(w, SetWorker(s, i, Notifying(worker.job, worker.own, worker.restart))), worker.final)
    case FailResult => WithServer(w, SetWorker(s, i, Notifying(worker.job, worker.own, worker.restart)))
    case Retain(kept) => WithServer(w, RetainOn(s, i, kept))
    case MarkStopped =>
      // `checked_sub`: a zero count would be left alone.
      WithServer(w, SetWorker(s, i, if worker.restart then Loading else Ended(false))
                      .(ready := if s.ready > 0 then s.ready - 1 else 0))
  }

  // ----- whole-process events -----

  /** Graceful shutdown waits for the handlers that are still running. */
  predicate NoHandlerRunning(s: Server) {
    forall id :: id in s.tickets ==>
      var t := s.tickets[id];
      !t.Checked? && !t.Inserted? && !t.Appended? && !t.Refused? && !t.Withdrawn?
  }

  function Boot(config: Config, jobs: JobMap): Server {
    Server(config, jobs, [], false, map[], map[], seq(config.workers, _ => Loading), 0, [], 0, 0,
           Metrics(0, 0, 0, 0, 0), {}, Tally(0, 0, 0, 0))
  }

  /** A disk rewritten by (part of) a restart. */
  function Rewritten(w: World, disk: Disk): World {
    w.(disk := disk, truncated := w.truncated + (Loaded(w.disk).Keys - Loaded(disk).Keys))
  }

  predicate Enabled(w: World, e: Event) {
    match e
    case Submit(id, step) => w.server.Some? && SubmitEnabled(w, w.server.value, id, step)
    case Work(i, work) => w.server.Some? && WorkEnabled(w.server.value, i, work)
    case DropSenders => w.server.Some? && NoHandlerRunning(w.server.value)
    case DetachedTaskEnds(k) => w.server.Some? && k < |w.server.value.detached|
    case Tick(now) => w.clock <= now
    case Crash => w.server.Some?
    case Restart(config, run) =>
      && w.server.None? && config.workers > 0 && config.queueSize > 0
      && ValidRun(w.disk, config.metadataLimit, config.jobLimit, w.clock, run)
    case InterruptedRestart(config, run, writes) =>
      && w.server.None?
      && ValidRun(w.disk, config.metadataLimit, config.jobLimit, w.clock, run)
      && writes <= |DurableStates(w.disk, config.metadataLimit, run)|
  }

  function Apply(w: World, e: Event): World
    requires Enabled(w, e)
  {
    match e
    case Submit(id, step) => ApplySubmit(w, w.server.value, id, step)
    case Work(i, work) => ApplyWork(w, w.server.value, i, work)
    case DropSenders => WithServer(w, w.server.value.(sendersGone := true))
    case DetachedTaskEnds(k) =>
      var s := w.server.value;
      WithServer(w, s.(detached := s.detached[..k] + s.detached[k + 1..]))
    case Tick(now) => w.(clock := now)
    case Crash => w.(server := None)
    case Restart(config, run) =>
      WithServer(Rewritten(w, FinalDisk(w.disk, config.metadataLimit, run)), Boot(config, LoadedTable(w.disk, run)))
    case InterruptedRestart(config, run, writes) =>
      Rewritten(w, StateAfter(w.disk, config.metadataLimit, run, writes))
  }

  /** `events` can happen in this order from `from`, ending in `to`. */
  predicate Runs(from: World, events: seq<Event>, to: World)
    decreases |events|
  {
    if events == [] then
      from == to
    else
      Enabled(from, events[0]) && Runs(Apply(from, events[0]), events[1..], to)
  }

  ghost predicate Reachable(w: World) {
    exists events :: Runs(INITIAL, events, w)
  }
}
