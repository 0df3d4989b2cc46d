/** Runs that reach the surprising states the protocol really has. */
module ProtocolWitnesses {
  import opened Records
  import opened MetadataLog
  import opened JobTables
  import opened ModelSessions
  import opened MetricsOrder
  import opened Protocol
  import opened ProtocolInvariants
  import opened ProtocolTheorems

  // One worker, room for one queued job, a one-second timeout, compaction off.
  const CONFIG := Config(1, 1, 10, 0, 1)

  const JOB: JobId := 7

  const SUBMITTED := JobRecord(
    JOB, JobStatus.Queued, 0, 0,
    Submission("images/7.png", "upload", "Single task", "Caption", None, None), None, None)

  const RUNNING := SUBMITTED.(status := JobStatus.Running)

  const EMPTY := Disk([], [])
  const LOGGED := Disk([SUBMITTED], [])
  const FIVE := FreshSessions(0)

  /** A reachable world of one worker, seen through the one job. */
  ghost predicate Scene(
    w: World, disk: Disk, record: Option<JobRecord>, queue: seq<JobId>, ticket: Option<Ticket>,
    worker: Worker, started: nat)
  {
    && Reachable(w) && w.disk == disk && w.clock == 0 && w.server.Some?
    && var s := w.server.value;
       && s.config == CONFIG && !s.sendersGone && s.queue == queue
       && Lookup(s.jobs, JOB) == record && Lookup(s.tickets, JOB) == ticket
       && Lookup(s.submitted, JOB) == (if ticket.Some? then Some(SUBMITTED) else None)
       && (ticket.None? ==> JOB !in w.used)
       && |s.workers| == 1 && s.workers[0] == worker && s.loads == (if worker.Loading? then 0 else 1)
       && s.metrics == Metrics(started, 0, 0, 0, 0)
  }

  lemma EmptyLoad()
    ensures Enabled(INITIAL, Restart(CONFIG, LoadRun([], [], {})))
    ensures FinalDisk(EMPTY, 0, LoadRun([], [], {})) == EMPTY && LoadedTable(EMPTY, LoadRun([], [], {})) == map[]
  {
    var run := LoadRun([], [], {});
    assert EMPTY.results + run.recovered == [];
    assert Loaded(EMPTY) == map[];
    assert Recovered(EMPTY, run) == map[];
    assert DurableStates(EMPTY, 0, run) == [];
    assert LoadedTable(EMPTY, run) == map[];
  }

  lemma Boots() returns (w: World)
    ensures Scene(w, EMPTY, None, [], None, Loading, 0)
  {
    EmptyLoad();
    var e := Restart(CONFIG, LoadRun([], [], {}));
    assert Runs(INITIAL, [], INITIAL);
    Extend(INITIAL, e);
    w := Apply(INITIAL, e);
  }

  lemma Loads(w: World) returns (w': World)
    requires Scene(w, EMPTY, None, [], None, Loading, 0)
    ensures Scene(w', EMPTY, None, [], None, Idle(FIVE), 0)
  {
    Extend(w, Work(0, LoadModel));
    w' := Apply(w, Work(0, LoadModel));
  }

  lemma Begins(w: World, worker: Worker) returns (w': World)
    requires Scene(w, EMPTY, None, [], None, worker, 0)
    ensures Scene(w', EMPTY, None, [], Some(Checked), worker, 0)
  {
    Extend(w, Submit(JOB, Begin(SUBMITTED)));
    w' := Apply(w, Submit(JOB, Begin(SUBMITTED)));
  }

  lemma Inserts(w: World, worker: Worker) returns (w': World)
    requires Scene(w, EMPTY, None, [], Some(Checked), worker, 0)
    ensures Scene(w', EMPTY, Some(SUBMITTED), [], Some(Inserted), worker, 0)
  {
    Extend(w, Submit(JOB, Insert));
    w' := Apply(w, Submit(JOB, Insert));
  }

  lemma Logs(w: World, worker: Worker) returns (w': World)
    requires Scene(w, EMPTY, Some(SUBMITTED), [], Some(Inserted), worker, 0)
    ensures Scene(w', LOGGED, Some(SUBMITTED), [], Some(Appended), worker, 0)
  {
    Extend(w, Submit(JOB, AppendSubmission));
    w' := Apply(w, Submit(JOB, AppendSubmission));
    assert EMPTY.submissions + [SUBMITTED] == [SUBMITTED];
  }

  lemma Sends(w: World) returns (w': World)
    requires Scene(w, LOGGED, Some(SUBMITTED), [], Some(Appended), Idle(FIVE), 0)
    ensures Scene(w', LOGGED, Some(SUBMITTED), [JOB], Some(InQueue), Idle(FIVE), 0)
  {
    Extend(w, Submit(JOB, TrySend));
    w' := Apply(w, Submit(JOB, TrySend));
    assert !w.server.value.workers[0].Ended?;
  }

  lemma Receives(w: World) returns (w': World)
    requires Scene(w, LOGGED, Some(SUBMITTED), [JOB], Some(InQueue), Idle(FIVE), 0)
    ensures Scene(w', LOGGED, Some(SUBMITTED), [], Some(Held(0)), Received(JOB, FIVE), 0)
  {
    Extend(w, Work(0, Receive));
    w' := Apply(w, Work(0, Receive));
  }

  lemma Starts(w: World) returns (w': World)
    requires Scene(w, LOGGED, Some(SUBMITTED), [], Some(Held(0)), Received(JOB, FIVE), 0)
    ensures Scene(w', LOGGED, Some(RUNNING), [], Some(Held(0)), Marked(JOB, FIVE), 1)
  {
    Extend(w, Work(0, RecordStart));
    var w1 := Apply(w, Work(0, RecordStart));
    Extend(w1, Work(0, MarkRunning));
    w' := Apply(w1, Work(0, MarkRunning));
  }

  lemma Spawns(w: World) returns (w': World)
    requires Scene(w, LOGGED, Some(RUNNING), [], Some(Held(0)), Marked(JOB, FIVE), 1)
    ensures Scene(w', LOGGED, Some(RUNNING), [], Some(Held(0)), Inferring(JOB, NO_SESSIONS, FIVE), 1)
  {
    Extend(w, Work(0, Spawn));
    w' := Apply(w, Work(0, Spawn));
  }

  /** From an empty disk to a job running in its blocking task. */
  lemma ReachInferring() returns (w: World)
    ensures Scene(w, LOGGED, Some(RUNNING), [], Some(Held(0)), Inferring(JOB, NO_SESSIONS, FIVE), 1)
  {
    w := Boots();
    w := Loads(w);
    w := Begins(w, Idle(FIVE));
    w := Inserts(w, Idle(FIVE));
    w := Logs(w, Idle(FIVE));
    w := Sends(w);
    w := Receives(w);
    w := Starts(w);
    w := Spawns(w);
  }

  /** `jobs_timed_out` can be read above `jobs_failed`: the two increments are separate. */
  lemma TimeoutCountedBeforeFailure()
    ensures exists w, s :: Reachable(w) && w.server == Some(s) && s.metrics.jobsTimedOut > s.metrics.jobsFailed
  {
    var w := ReachInferring();
    Extend(w, Work(0, TaskEnds(TimedOut)));
    var w' := Apply(w, Work(0, TaskEnds(TimedOut)));
    Extend(w', Work(0, CountOne));
    var w'' := Apply(w', Work(0, CountOne));
    assert w''.server.value.metrics.jobsTimedOut == 1 && w''.server.value.metrics.jobsFailed == 0;
  }

  /**
   * A snapshot can show a timeout and no failure although no worker is ever between
   * its two bumps when a counter is loaded.
   */
  lemma TornSnapshot() returns (first: World, events: seq<Event>, second: World)
    ensures Reachable(first) && Runs(first, events, second) && forall e :: e in events ==> KeepsProcess(e)
    ensures first.server.Some? && second.server.Some?
    ensures NobodyBetween(first) && NobodyBetween(second)
    ensures first.server.value.metrics.jobsFailed == 0 && second.server.value.metrics.jobsTimedOut == 1
  {
    first := ReachInferring();
    var ended := TimesOut(first);
    var counted := Counts(ended, [CountTimedOut, CountFailed, CountRestarts], 0);
    second := Counts(counted, [CountFailed, CountRestarts], 1);
    events := TIMEOUT;
    ThreeSteps(first, TIMEOUT, ended, counted, second);
    OneInferring(first);
    TimeoutKeepsProcess();
  }

  // A timeout and its first two counts.
  const TIMEOUT := [Work(0, TaskEnds(TimedOut)), Work(0, CountOne), Work(0, CountOne)]

  lemma TimeoutKeepsProcess()
    ensures forall e :: e in TIMEOUT ==> KeepsProcess(e)
  {
  }

  /** No worker has counted its timeout and not its failure. */
  predicate NobodyBetween(w: World) {
    w.server.Some? && forall i :: 0 <= i < |w.server.value.workers| ==> !BetweenBumps(w.server.value.workers[i])
  }

  lemma OneInferring(w: World)
    requires Scene(w, LOGGED, Some(RUNNING), [], Some(Held(0)), Inferring(JOB, NO_SESSIONS, FIVE), 1)
    ensures NobodyBetween(w) && w.server.value.metrics.jobsFailed == 0
  {
  }

  lemma ThreeSteps(w: World, events: seq<Event>, w1: World, w2: World, w3: World)
    requires |events| == 3
    requires Enabled(w, events[0]) && w1 == Apply(w, events[0])
    requires Enabled(w1, events[1]) && w2 == Apply(w1, events[1])
    requires Enabled(w2, events[2]) && w3 == Apply(w2, events[2])
    ensures Runs(w, events, w3)
  {
    assert events[1..][1..][1..] == [];
    assert Runs(w3, events[1..][1..][1..], w3);
    assert Runs(w2, events[1..][1..], w3);
    assert Runs(w1, events[1..], w3);
  }

  /** One worker recording a timeout. */
  predicate Recorded(w: World, todo: seq<Counter>, timedOut: nat) {
    && w.server.Some? && |w.server.value.workers| == 1
    && w.server.value.workers[0] == Recording(JOB, NO_SESSIONS, TimedOut, todo)
    && w.server.value.metrics.jobsTimedOut == timedOut
  }

  lemma TimesOut(w: World) returns (after: World)
    requires Scene(w, LOGGED, Some(RUNNING), [], Some(Held(0)), Inferring(JOB, NO_SESSIONS, FIVE), 1)
    ensures Enabled(w, Work(0, TaskEnds(TimedOut))) && after == Apply(w, Work(0, TaskEnds(TimedOut)))
    ensures Recorded(after, [CountTimedOut, CountFailed, CountRestarts], 0)
  {
    after := Apply(w, Work(0, TaskEnds(TimedOut)));
  }

  lemma Counts(w: World, todo: seq<Counter>, timedOut: nat) returns (after: World)
    requires Recorded(w, todo, timedOut) && todo != []
    ensures Enabled(w, Work(0, CountOne)) && after == Apply(w, Work(0, CountOne))
    ensures Recorded(after, todo[1..], if todo[0].CountTimedOut? then timedOut + 1 else timedOut)
    ensures CountFailed !in todo[1..] ==> NobodyBetween(after)
  {
    after := Apply(w, Work(0, CountOne));
  }

  /**
   * A terminal status is visible before it is durable: a crash at that moment
   * replaces the reported outcome by the restart failure.
   */
  lemma TerminalBeforeDurable()
    ensures exists w, s, id :: Reachable(w) && w.server == Some(s) && id in s.jobs && Terminal(s.jobs[id])
                               && id in Outcomes(w.disk) && Outcomes(w.disk)[id] != OutcomeOf(s.jobs[id])
  {
    var w := ReachFinished();
    RestartMeaning(w, JOB);
    assert w.disk.submissions[0].id == JOB;
    assert JOB in w.server.value.jobs;
  }

  /** A job finished in memory whose result is not logged yet. */
  lemma ReachFinished() returns (w: World)
    ensures Reachable(w) && w.disk == LOGGED && w.server.Some?
    ensures JOB in w.server.value.jobs && w.server.value.jobs[JOB].status == Succeeded
  {
    var ending := Returned(Success(InferenceMetadata("<CAPTION>", "a cat", 4)));
    w := ReachInferring();
    Extend(w, Work(0, TaskEnds(ending)));
    w := Apply(w, Work(0, TaskEnds(ending)));
    Extend(w, Work(0, CountOne));
    w := Apply(w, Work(0, CountOne));
    Extend(w, Work(0, FinishLocked));
    w := Apply(w, Work(0, FinishLocked));
  }

  /**
   * A handler that is cancelled while its submission is being logged leaves a queued
   * record in the table that no queue entry and no worker stands for.
   */
  lemma OrphanReachable()
    ensures exists w, s, id :: Reachable(w) && w.server == Some(s) && id in s.jobs
                               && s.jobs[id].status.Queued? && id !in w.accepted
                               && id !in s.queue && Holders(s, id) == {}
                               && HasTicket(s, id, AppendAbandoned)
  {
    var w := Abandons();
    NobodyHolds(w, w.server.value);
    assert JOB in w.server.value.jobs;
  }

  lemma Abandons() returns (w: World)
    ensures Scene(w, EMPTY, Some(SUBMITTED), [], Some(AppendAbandoned), Loading, 0)
  {
    w := Boots();
    w := Begins(w, Loading);
    w := Inserts(w, Loading);
    Extend(w, Submit(JOB, AbandonSubmission));
    w := Apply(w, Submit(JOB, AbandonSubmission));
  }

  lemma NobodyHolds(w: World, s: Server)
    requires Scene(w, EMPTY, Some(SUBMITTED), [], Some(AppendAbandoned), Loading, 0) && w.server == Some(s)
    ensures JOB !in w.accepted && Holders(s, JOB) == {} && HasTicket(s, JOB, AppendAbandoned)
  {
    ReachableJobs(w);
    assert ViewOK(JOB, ViewOf(w, s, JOB));
  }
}
