/** One worker's loop as straight-line code, and the protocol steps it takes when nothing interleaves. */
module WorkerLoop {
  import opened Records
  import opened Retention
  import opened MetadataLog
  import opened Endings
  import opened JobTables
  import opened ModelSessions
  import opened PoolAccounting
  import opened PoolInvariants
  import opened Protocol
  import opened ServerState
  import opened Store
  import opened Traces
  import opened Webhooks

  /** What the worker shares with the rest of the process, as values. */
  datatype Shared = Shared(
    config: Config, jobs: JobMap, disk: Disk, metrics: Metrics, ready: nat, failed: nat)

  /** `t` is a run of the protocol, ends where the shared state is `shared`, and has worker `i` at `worker`. */
  ghost predicate At(t: Trace, shared: Shared, i: nat, worker: Worker) {
    && ValidTrace(t)
    && t.now.server.Some?
    && SharedBy(t.now, t.now.server.value) == shared
    && i < |t.now.server.value.workers| && t.now.server.value.workers[i] == worker
  }

  function SharedBy(w: World, s: Server): Shared {
    Shared(s.config, s.jobs, w.disk, s.metrics, s.ready, s.failed)
  }

  lemma TakeTick(t: Trace, shared: Shared, i: nat, worker: Worker, now: Stamp) returns (after: Trace)
    requires At(t, shared, i, worker) && t.now.clock <= now
    ensures At(after, shared, i, worker) && after.start == t.start && after.now.clock == now
  {
    after := Take(t, Tick(now));
  }

  lemma TakeRecordStart(t: Trace, shared: Shared, i: nat, job: JobId, own: Sessions) returns (after: Trace)
    requires At(t, shared, i, Received(job, own))
    ensures At(after, shared.(metrics := shared.metrics.(jobsStarted := shared.metrics.jobsStarted + 1)), i, Started(job, own))
    ensures after.start == t.start && after.now.clock == t.now.clock
  {
    after := Take(t, Work(i, RecordStart));
  }

  lemma TakeMarkRunning(t: Trace, shared: Shared, i: nat, job: JobId, own: Sessions) returns (after: Trace)
    requires At(t, shared, i, Started(job, own))
    ensures At(after, shared.(jobs := MarkRunningIn(shared.jobs, job, t.now.clock)), i, Marked(job, own))
    ensures after.start == t.start && after.now.clock == t.now.clock
  {
    var e := Work(i, WorkStep.MarkRunning);
    after := Take(t, e);
  }

  lemma TakeSpawn(t: Trace, shared: Shared, i: nat, job: JobId, own: Sessions) returns (after: Trace)
    requires At(t, shared, i, Marked(job, own))
    ensures At(after, shared, i, Inferring(job, NO_SESSIONS, own))
    ensures after.start == t.start && after.now.clock == t.now.clock
  {
    after := Take(t, Work(i, Spawn));
  }

  lemma TakeTaskEnds(t: Trace, shared: Shared, i: nat, job: JobId, lent: Sessions, ending: Ending) returns (after: Trace)
    requires At(t, shared, i, Inferring(job, NO_SESSIONS, lent))
    requires ending.TimedOut? ==> shared.config.jobTimeoutSeconds > 0
    requires ending.Returned? && ending.verdict.Success? ==> Complete(lent)
    ensures At(after, shared, i, Recording(job, if ending.Returned? then lent else NO_SESSIONS, ending, Owing(ending)))
    ensures after.start == t.start && after.now.clock == t.now.clock
  {
    after := Take(t, Work(i, TaskEnds(ending)));
  }

  lemma TakeCountOne(t: Trace, shared: Shared, i: nat, job: JobId, own: Sessions, ending: Ending, todo: seq<Counter>)
    returns (after: Trace)
    requires At(t, shared, i, Recording(job, own, ending, todo)) && todo != []
    ensures At(after, shared.(metrics := Bump(shared.metrics, todo[0])), i, Recording(job, own, ending, todo[1..]))
    ensures after.start == t.start && after.now.clock == t.now.clock
  {
    after := Take(t, Work(i, CountOne));
  }

  /** Recording everything owed, one counter at a time. */
  lemma {:induction false} TakeCounts(
    t: Trace, shared: Shared, i: nat, job: JobId, own: Sessions, ending: Ending, todo: seq<Counter>)
    returns (after: Trace)
    requires At(t, shared, i, Recording(job, own, ending, todo))
    ensures At(after, shared.(metrics := BumpAll(shared.metrics, todo)), i, Recording(job, own, ending, []))
    ensures after.start == t.start && after.now.clock == t.now.clock
    decreases |todo|
  {
    after := t;
    if todo != [] {
      after := TakeCountOne(t, shared, i, job, own, ending, todo);
      after := TakeCounts(after, shared.(metrics := Bump(shared.metrics, todo[0])), i, job, own, ending, todo[1..]);
    }
  }

  lemma TakeFinish(t: Trace, shared: Shared, i: nat, job: JobId, own: Sessions, ending: Ending) returns (after: Trace)
    requires At(t, shared, i, Recording(job, own, ending, []))
    ensures var jobs := FinishIn(shared.jobs, job, VerdictOf(ending, shared.config), t.now.clock);
            At(after, shared.(jobs := jobs), i,
               if job in jobs then Persisting(job, own, jobs[job], Restarts(ending)) else AfterJob(own, Restarts(ending)))
    ensures after.start == t.start
  {
    var e := Work(i, WorkStep.FinishLocked);
    after := Take(t, e);
  }

  lemma TakeAppend(t: Trace, shared: Shared, i: nat, job: JobId, own: Sessions, final: JobRecord, restart: bool, appended: bool)
    returns (after: Trace)
    requires At(t, shared, i, Persisting(job, own, final, restart))
    ensures var disk := if appended then Disk(shared.disk.submissions, shared.disk.results + [final]) else shared.disk;
            At(after, shared.(disk := disk), i, Notifying(job, own, restart))
    ensures after.start == t.start
  {
    var e := Work(i, if appended then WorkStep.AppendResult else FailResult);
    after := Take(t, e);
  }

  lemma TakeRetain(t: Trace, shared: Shared, i: nat, job: JobId, own: Sessions, restart: bool, kept: set<JobId>)
    returns (after: Trace)
    requires At(t, shared, i, Notifying(job, own, restart))
    requires KeepsMostRecent(shared.jobs, shared.config.jobLimit, kept)
    ensures At(after, shared.(jobs := Restrict(shared.jobs, kept)), i, AfterJob(own, restart))
    ensures after.start == t.start
  {
    after := Take(t, Work(i, Retain(kept)));
  }

  lemma TakeLoad(t: Trace, shared: Shared, i: nat, loaded: bool) returns (after: Trace)
    requires At(t, shared, i, Loading)
    ensures loaded ==>
              At(after, shared.(ready := shared.ready + 1), i, Idle(FreshSessions(t.now.server.value.loads)))
    ensures !loaded ==> At(after, shared.(failed := shared.failed + 1), i, Ended(true))
    ensures after.start == t.start
  {
    after := Take(t, Work(i, if loaded then LoadModel else LoadFails));
  }

  lemma TakeStop(t: Trace, shared: Shared, i: nat, restart: bool) returns (after: Trace)
    requires At(t, shared, i, Stopping(restart))
    ensures At(after, shared.(ready := if shared.ready > 0 then shared.ready - 1 else 0), i,
               if restart then Loading else Ended(false))
    ensures after.start == t.start
  {
    after := Take(t, Work(i, WorkStep.MarkStopped));
  }

  lemma TableStaysKeyed(jobs: JobMap, job: JobId, verdict: Verdict, now: Stamp)
    requires KeyedById(jobs)
    ensures KeyedById(FinishIn(jobs, job, verdict, now)) && KeyedById(MarkRunningIn(jobs, job, now))
  {
  }

  /** What finishing a job leaves outside the table: its line, if the append worked, and its webhook requests. */
  predicate PassedOn(
    before: Disk, after: Disk, sent: seq<Request>, requests: seq<Request>, final: Option<JobRecord>, appended: bool,
    endpoint: Endpoint, maxAttempts: Attempts)
  {
    match final
    case None => after == before && requests == sent
    case Some(record) =>
      && after == (if appended then Disk(before.submissions, before.results + [record]) else before)
      && requests == sent + RequestsFor(record, endpoint, maxAttempts)
  }

  class WorkerRuntime {
    const config: Config
    const table: JobTable
    const store: MetadataStore
    const metrics: AppMetrics
    const pool: WorkerPoolState
    const webhooks: WebhookClient

    constructor (
      config: Config, table: JobTable, store: MetadataStore, metrics: AppMetrics,
      pool: WorkerPoolState, webhooks: WebhookClient)
      ensures this.config == config && this.table == table && this.store == store
      ensures this.metrics == metrics && this.pool == pool && this.webhooks == webhooks
    {
      this.config, this.table, this.store := config, table, store;
      this.metrics, this.pool, this.webhooks := metrics, pool, webhooks;
    }

    ghost function State(): Shared
      reads table, store, metrics, pool
    {
      Shared(config, table.jobs, store.OnDisk(), metrics.Snapshot(), pool.ready, pool.failed)
    }

    /** `initialize_worker`; `loaded` says whether building the worker succeeded, `load` numbers the attempt. */
    method InitializeWorker(i: nat, load: nat, loaded: bool, ghost t: Trace)
      returns (worker: Option<FlorenceWorker>, ghost after: Trace)
      requires At(t, State(), i, Loading) && load == t.now.server.value.loads
      modifies pool
      ensures worker.Some? <==> loaded
      ensures loaded ==> fresh(worker.value) && Complete(worker.value.Held())
      ensures At(after, State(), i, if loaded then Idle(worker.value.Held()) else Ended(true))
      ensures after.start == t.start
    {
      after := TakeLoad(t, State(), i, loaded);
      if !loaded {
        pool.MarkFailed();
        return None, after;
      }
      var built := new FlorenceWorker(i, FreshSessions(load));
      pool.MarkReady();
      worker := Some(built);
    }

    /** What a submit handler asks before it accepts anything, on any run from the empty disk. */
    method ReportsReady(ghost i: nat, ghost worker: Worker, ghost t: Trace) returns (ready: bool)
      requires At(t, State(), i, worker) && t.start == INITIAL
      ensures ready <==> exists j :: 0 <= j < |t.now.server.value.workers| && InService(t.now.server.value.workers[j])
    {
      ready := pool.IsReady();
      ReadyIff(t.now, t.now.server.value);
    }

    /** The end of an iteration of `worker_loop`: load again, or leave for good. */
    method LeaveQueue(i: nat, restart: bool, ghost t: Trace) returns (ghost after: Trace)
      requires At(t, State(), i, Stopping(restart))
      modifies pool
      ensures At(after, State(), i, if restart then Loading else Ended(false)) && after.start == t.start
    {
      after := TakeStop(t, State(), i, restart);
      pool.MarkStopped();
    }

    /** The second half of `finish_job`: append, webhook, retention. */
    method PersistJob(
      i: nat, job: JobId, own: Sessions, final: JobRecord, restart: bool, appended: bool, endpoint: Endpoint,
      ghost t: Trace)
      returns (ghost after: Trace)
      requires KeyedById(table.jobs)
      requires At(t, State(), i, Persisting(job, own, final, restart))
      modifies table, store, webhooks
      ensures At(after, State(), i, AfterJob(own, restart)) && after.start == t.start
      ensures webhooks.requests == old(webhooks.requests) + RequestsFor(final, endpoint, webhooks.maxAttempts)
      ensures store.OnDisk() ==
                if appended then Disk(old(store.submissions), old(store.results) + [final]) else old(store.OnDisk())
    {
      after := TakeAppend(t, State(), i, job, own, final, restart, appended);
      if appended {
        store.AppendResult(final);
      }
      webhooks.SendWebhook(final, endpoint);
      ghost var before := State();
      ghost var kept := table.RetainRecent(config.jobLimit);
      after := TakeRetain(after, before, i, job, own, restart, kept);
    }

    /**
     * `finish_job`: the lock region, and the rest unless the job is missing.
     * `appended` says whether the append worked.  What is stored, logged and sent is
     * one record, and it tells how the inference ended.
     */
    method FinishJob(
      i: nat, job: JobId, ending: Ending, own: Sessions, now: Stamp, appended: bool, endpoint: Endpoint, ghost t: Trace)
      returns (ghost after: Trace, ghost final: Option<JobRecord>)
      requires KeyedById(table.jobs)
      requires At(t, State(), i, Recording(job, own, ending, [])) && now == t.now.clock
      modifies table, store, webhooks
      ensures At(after, State(), i, AfterJob(own, Restarts(ending))) && after.start == t.start
      ensures final.Some? <==> job in old(table.jobs)
      ensures final.Some? ==>
                && TellsEnding(final.value, ending, config.jobTimeoutSeconds)
                && SameJob(final.value, old(table.jobs)[job]) && final.value.updatedAt == now
      ensures PassedOn(old(store.OnDisk()), store.OnDisk(), old(webhooks.requests), webhooks.requests, final, appended,
                       endpoint, webhooks.maxAttempts)
    {
      TableStaysKeyed(table.jobs, job, VerdictOf(ending, config), now);
      after := TakeFinish(t, State(), i, job, own, ending);
      if job in table.jobs {
        FinishedTells(table.jobs[job], ending, config, now);
      }
      var locked := table.FinishLocked(job, VerdictOf(ending, config), now);
      final := locked;
      if locked.Some? {
        after := PersistJob(i, job, own, locked.value, Restarts(ending), appended, endpoint, after);
      }
    }

    /** `mark_running` and `spawn_inference`, up to the wait for the blocking task. */
    method StartJob(i: nat, worker: FlorenceWorker, job: JobId, started: Stamp, ghost t: Trace)
      returns (lent: FlorenceWorker, ghost after: Trace)
      requires KeyedById(table.jobs)
      requires At(t, State(), i, Received(job, worker.Held())) && t.now.clock <= started
      modifies table, metrics, worker
      ensures KeyedById(table.jobs) && table.jobs.Keys == old(table.jobs).Keys
      ensures job in table.jobs ==> SameJob(table.jobs[job], old(table.jobs)[job])
      ensures fresh(lent) && lent.Held() == old(worker.Held()) && worker.Held() == NO_SESSIONS
      ensures metrics.Snapshot() == old(metrics.Snapshot().(jobsStarted := metrics.jobsStarted + 1))
      ensures At(after, State(), i, Inferring(job, NO_SESSIONS, lent.Held()))
      ensures after.start == t.start && after.now.clock == started
    {
      ghost var own := worker.Held();
      after := TakeRecordStart(t, State(), i, job, own);
      metrics.RecordJobStarted();
      after := TakeTick(after, State(), i, Started(job, own), started);
      after := TakeMarkRunning(after, State(), i, job, own);
      TableStaysKeyed(table.jobs, job, Failure(""), started);
      table.MarkRunning(job, started);
      after := TakeSpawn(after, State(), i, job, own);
      lent := worker.TakeForBlocking();
    }

    /** `handle_inference_result` up to `finish_job`: sessions back or lost, counters bumped. */
    method EndJob(
      i: nat, worker: FlorenceWorker, lent: FlorenceWorker, job: JobId, ending: Ending, finished: Stamp,
      ghost t: Trace)
      returns (ghost after: Trace)
      requires At(t, State(), i, Inferring(job, NO_SESSIONS, lent.Held())) && t.now.clock <= finished
      requires worker.Held() == NO_SESSIONS && lent != worker
      requires ending.TimedOut? ==> config.jobTimeoutSeconds > 0
      requires ending.Returned? && ending.verdict.Success? ==> Complete(lent.Held())
      modifies metrics, worker
      ensures At(after, State(), i, Recording(job, worker.Held(), ending, []))
      ensures after.start == t.start && after.now.clock == finished
      ensures worker.Held() == if Restarts(ending) then NO_SESSIONS else lent.Held()
      ensures metrics.Snapshot() == BumpAll(old(metrics.Snapshot()), Owing(ending))
    {
      after := TakeTick(t, State(), i, Inferring(job, NO_SESSIONS, lent.Held()), finished);
      after := TakeTaskEnds(after, State(), i, job, lent.Held(), ending);
      if ending.Returned? {
        worker.TakeBack(lent);
      }
      after := TakeCounts(after, State(), i, job, worker.Held(), ending, Owing(ending));
      metrics.RecordEnding(ending);
    }

    /**
     * `process_worker_request`, run with nothing interleaved.  `ending` is how the wait
     * for the blocking task ends: a timeout needs a configured limit, and success needs
     * the sessions.  The result tells the loop whether to leave and reload the model.
     */
    method ProcessRequest(
      i: nat, worker: FlorenceWorker, job: JobId, ending: Ending,
      started: Stamp, finished: Stamp, appended: bool, endpoint: Endpoint, ghost t: Trace)
      returns (restart: bool, ghost after: Trace, ghost final: Option<JobRecord>)
      requires KeyedById(table.jobs)
      requires At(t, State(), i, Received(job, worker.Held())) && t.now.clock <= started <= finished
      requires ending.TimedOut? ==> config.jobTimeoutSeconds > 0
      requires ending.Returned? && ending.verdict.Success? ==> Complete(worker.Held())
      modifies table, store, metrics, webhooks, worker
      ensures At(after, State(), i, AfterJob(worker.Held(), restart)) && after.start == t.start
      ensures final.Some? <==> job in old(table.jobs)
      ensures final.Some? ==>
                && TellsEnding(final.value, ending, config.jobTimeoutSeconds)
                && SameJob(final.value, old(table.jobs)[job]) && final.value.updatedAt == finished
      ensures PassedOn(old(store.OnDisk()), store.OnDisk(), old(webhooks.requests), webhooks.requests, final, appended,
                       endpoint, webhooks.maxAttempts)
      ensures restart == Restarts(ending)
      ensures worker.Held() == if restart then NO_SESSIONS else old(worker.Held())
      ensures metrics.Snapshot()
              == BumpAll(old(metrics.Snapshot().(jobsStarted := metrics.jobsStarted + 1)), Owing(ending))
    {
      var lent;
      lent, after := StartJob(i, worker, job, started, t);
      after := EndJob(i, worker, lent, job, ending, finished, after);
      after, final := FinishJob(i, job, ending, worker.Held(), finished, appended, endpoint, after);
      restart := Restarts(ending);
    }
  }
}
