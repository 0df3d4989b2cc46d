/** A run in which retention evicts a queued job, and both missing branches are taken. */
module EvictionWitness {
  import opened Records
  import opened Retention
  import opened MetadataLog
  import opened JobTables
  import opened ModelSessions
  import opened Protocol
  import opened ProtocolTheorems

  // One worker, room for one queued job, and a table that keeps one record.
  const CONFIG := Config(1, 1, 1, 0, 0)
  const FIVE := FreshSessions(0)
  const OLD: JobId := 1
  const LATE: JobId := 2

  function Fresh(id: JobId): JobRecord {
    JobRecord(id, JobStatus.Queued, 0, 0, Submission("image.png", "upload", "Single task", "Caption", None, None), None, None)
  }

  /** A reachable world of one worker at time zero. */
  ghost predicate Scene(w: World, jobs: JobMap, tickets: map<JobId, Ticket>, queue: seq<JobId>, worker: Worker) {
    && Reachable(w) && w.clock == 0 && w.server.Some? && w.used == tickets.Keys
    && var s := w.server.value;
       && s.config == CONFIG && !s.sendersGone && s.queue == queue && s.jobs == jobs && s.tickets == tickets
       && (forall id :: id in tickets ==> id in s.submitted && s.submitted[id] == Fresh(id))
       && |s.workers| == 1 && s.workers[0] == worker
  }

  lemma Boots() returns (w: World)
    ensures Scene(w, map[], map[], [], Idle(FIVE)) && w.disk == Disk([], [])
  {
    var run := LoadRun([], [], {});
    assert Loaded(INITIAL.disk) == map[];
    assert INITIAL.disk.results + [] == [];
    assert Recovered(INITIAL.disk, run) == map[];
    assert DurableStates(INITIAL.disk, 0, run) == [];
    assert LoadedTable(INITIAL.disk, run) == map[];
    assert Runs(INITIAL, [], INITIAL);
    Extend(INITIAL, Restart(CONFIG, run));
    w := Apply(INITIAL, Restart(CONFIG, run));
    Extend(w, Work(0, LoadModel));
    w := Apply(w, Work(0, LoadModel));
  }

  lemma Begins(w: World, jobs: JobMap, tickets: map<JobId, Ticket>, worker: Worker, id: JobId) returns (after: World)
    requires Scene(w, jobs, tickets, [], worker) && id !in tickets
    ensures Scene(after, jobs, tickets[id := Checked], [], worker) && after.disk == w.disk
  {
    Extend(w, Submit(id, Begin(Fresh(id))));
    after := Apply(w, Submit(id, Begin(Fresh(id))));
  }

  lemma Checks(w: World, jobs: JobMap, tickets: map<JobId, Ticket>, worker: Worker, id: JobId) returns (after: World)
    requires Scene(w, jobs, tickets, [], worker) && id in tickets && tickets[id] == Checked
    ensures Scene(after, jobs[id := Fresh(id)], tickets[id := Inserted], [], worker) && after.disk == w.disk
  {
    Extend(w, Submit(id, Insert));
    after := Apply(w, Submit(id, Insert));
  }

  lemma Overwritten(tickets: map<JobId, Ticket>, id: JobId, a: Ticket, b: Ticket)
    ensures tickets[id := a][id := b] == tickets[id := b]
  {
  }

  lemma Inserts(w: World, jobs: JobMap, tickets: map<JobId, Ticket>, worker: Worker, id: JobId) returns (after: World)
    requires Scene(w, jobs, tickets, [], worker) && id !in tickets
    ensures Scene(after, jobs[id := Fresh(id)], tickets[id := Inserted], [], worker) && after.disk == w.disk
  {
    after := Begins(w, jobs, tickets, worker, id);
    after := Checks(after, jobs, tickets[id := Checked], worker, id);
    Overwritten(tickets, id, Checked, Inserted);
  }

  lemma Logs(w: World, jobs: JobMap, tickets: map<JobId, Ticket>, worker: Worker, id: JobId) returns (after: World)
    requires Scene(w, jobs, tickets, [], worker) && id in tickets && tickets[id] == Inserted
    ensures Scene(after, jobs, tickets[id := Appended], [], worker)
    ensures after.disk == Disk(w.disk.submissions + [Fresh(id)], w.disk.results)
  {
    Extend(w, Submit(id, AppendSubmission));
    after := Apply(w, Submit(id, AppendSubmission));
  }

  lemma Sends(w: World, jobs: JobMap, tickets: map<JobId, Ticket>, worker: Worker, id: JobId) returns (after: World)
    requires Scene(w, jobs, tickets, [], worker) && id in tickets && tickets[id] == Appended && !worker.Ended?
    ensures Scene(after, jobs, tickets[id := InQueue], [id], worker)
  {
    Extend(w, Submit(id, TrySend));
    after := Apply(w, Submit(id, TrySend));
  }

  lemma Receives(w: World, jobs: JobMap, tickets: map<JobId, Ticket>, id: JobId) returns (after: World)
    requires Scene(w, jobs, tickets, [id], Idle(FIVE)) && id in tickets
    ensures Scene(after, jobs, tickets[id := Held(0)], [], Received(id, FIVE))
  {
    Extend(w, Work(0, Receive));
    after := Apply(w, Work(0, Receive));
  }

  lemma Starts(w: World, jobs: JobMap, tickets: map<JobId, Ticket>, id: JobId) returns (after: World)
    requires Scene(w, jobs, tickets, [], Received(id, FIVE))
    ensures Scene(after, jobs, tickets, [], Started(id, FIVE))
  {
    Extend(w, Work(0, RecordStart));
    after := Apply(w, Work(0, RecordStart));
  }

  lemma Infers(w: World, jobs: JobMap, tickets: map<JobId, Ticket>, id: JobId) returns (after: World)
    requires Scene(w, jobs, tickets, [], Started(id, FIVE))
    ensures Scene(after, MarkRunningIn(jobs, id, 0), tickets, [], Inferring(id, NO_SESSIONS, FIVE))
  {
    Extend(w, Work(0, WorkStep.MarkRunning));
    var marked := Apply(w, Work(0, WorkStep.MarkRunning));
    assert Scene(marked, MarkRunningIn(jobs, id, 0), tickets, [], Marked(id, FIVE));
    Extend(marked, Work(0, Spawn));
    after := Apply(marked, Work(0, Spawn));
  }

  const FAILURE := Failure("unreadable image")

  lemma Ends(w: World, jobs: JobMap, tickets: map<JobId, Ticket>, queue: seq<JobId>, id: JobId) returns (after: World)
    requires Scene(w, jobs, tickets, queue, Inferring(id, NO_SESSIONS, FIVE))
    ensures Scene(after, jobs, tickets, queue, Recording(id, FIVE, Returned(FAILURE), []))
  {
    var ending := Returned(FAILURE);
    Extend(w, Work(0, TaskEnds(ending)));
    var ended := Apply(w, Work(0, TaskEnds(ending)));
    assert Scene(ended, jobs, tickets, queue, Recording(id, FIVE, ending, [CountFailed]));
    Extend(ended, Work(0, CountOne));
    after := Apply(ended, Work(0, CountOne));
  }

  lemma Locks(w: World, jobs: JobMap, tickets: map<JobId, Ticket>, queue: seq<JobId>, id: JobId) returns (after: World)
    requires Scene(w, jobs, tickets, queue, Recording(id, FIVE, Returned(FAILURE), [])) && id in jobs
    ensures var finished := FinishIn(jobs, id, FAILURE, 0);
            Scene(after, finished, tickets, queue, Persisting(id, FIVE, finished[id], false))
  {
    Extend(w, Work(0, WorkStep.FinishLocked));
    after := Apply(w, Work(0, WorkStep.FinishLocked));
  }

  lemma FailsToLog(
    w: World, jobs: JobMap, tickets: map<JobId, Ticket>, queue: seq<JobId>, id: JobId, final: JobRecord)
    returns (after: World)
    requires Scene(w, jobs, tickets, queue, Persisting(id, FIVE, final, false))
    ensures Scene(after, jobs, tickets, queue, Notifying(id, FIVE, false))
  {
    Extend(w, Work(0, FailResult));
    after := Apply(w, Work(0, FailResult));
  }

  lemma Retains(w: World, jobs: JobMap, tickets: map<JobId, Ticket>, queue: seq<JobId>, id: JobId, kept: set<JobId>)
    returns (after: World)
    requires Scene(w, jobs, tickets, queue, Notifying(id, FIVE, false)) && KeepsMostRecent(jobs, 1, kept)
    requires id in tickets
    ensures Scene(after, Restrict(jobs, kept), tickets[id := Completed], queue, Idle(FIVE))
  {
    Extend(w, Work(0, Retain(kept)));
    after := Apply(w, Work(0, Retain(kept)));
  }

  lemma KeepsOld(jobs: JobMap)
    requires jobs.Keys == {OLD, LATE} && jobs[LATE].updatedAt == jobs[OLD].updatedAt
    ensures KeepsMostRecent(jobs, 1, {OLD}) && LATE !in Restrict(jobs, {OLD})
  {
    assert |jobs| == |jobs.Keys| == 2;
  }

  /** Finishing the older job evicts the one still waiting in the queue. */
  lemma Evicts(w: World, jobs: JobMap, tickets: map<JobId, Ticket>) returns (after: World, left: JobMap)
    requires Scene(w, jobs, tickets, [LATE], Recording(OLD, FIVE, Returned(FAILURE), []))
    requires jobs.Keys == {OLD, LATE} && jobs[LATE].updatedAt == 0 && OLD in tickets
    ensures Scene(after, left, tickets[OLD := Completed], [LATE], Idle(FIVE)) && LATE !in left
  {
    var finished := FinishIn(jobs, OLD, FAILURE, 0);
    after := Locks(w, jobs, tickets, [LATE], OLD);
    after := FailsToLog(after, finished, tickets, [LATE], OLD, finished[OLD]);
    KeepsOld(finished);
    after := Retains(after, finished, tickets, [LATE], OLD, {OLD});
    left := Restrict(finished, {OLD});
  }

  lemma Submits(w: World, jobs: JobMap, tickets: map<JobId, Ticket>, worker: Worker, id: JobId) returns (after: World)
    requires Scene(w, jobs, tickets, [], worker) && id !in tickets && !worker.Ended?
    ensures Scene(after, jobs[id := Fresh(id)], tickets[id := InQueue], [id], worker)
  {
    after := Inserts(w, jobs, tickets, worker, id);
    after := Logs(after, jobs[id := Fresh(id)], tickets[id := Inserted], worker, id);
    after := Sends(after, jobs[id := Fresh(id)], tickets[id := Inserted][id := Appended], worker, id);
    Overwritten(tickets, id, Inserted, Appended);
    Overwritten(tickets, id, Appended, InQueue);
  }

  /** The older job is running and the later one waits in the queue. */
  lemma ReachBoth() returns (w: World, jobs: JobMap, tickets: map<JobId, Ticket>)
    ensures Scene(w, jobs, tickets, [LATE], Inferring(OLD, NO_SESSIONS, FIVE))
    ensures jobs.Keys == {OLD, LATE} && jobs[LATE].updatedAt == 0 && tickets.Keys == {OLD, LATE}
  {
    w := Boots();
    w := Submits(w, map[], map[], Idle(FIVE), OLD);
    jobs, tickets := map[][OLD := Fresh(OLD)], map[][OLD := InQueue];
    w := Receives(w, jobs, tickets, OLD);
    tickets := tickets[OLD := Held(0)];
    w := Starts(w, jobs, tickets, OLD);
    w := Infers(w, jobs, tickets, OLD);
    jobs := MarkRunningIn(jobs, OLD, 0);
    w := Submits(w, jobs, tickets, Inferring(OLD, NO_SESSIONS, FIVE), LATE);
    jobs, tickets := jobs[LATE := Fresh(LATE)], tickets[LATE := InQueue];
  }

  /** A worker about to mark an evicted job running. */
  lemma ReachMarking() returns (w: World, jobs: JobMap, tickets: map<JobId, Ticket>)
    ensures Scene(w, jobs, tickets, [], Started(LATE, FIVE)) && LATE !in jobs
  {
    w, jobs, tickets := ReachBoth();
    w := Ends(w, jobs, tickets, [LATE], OLD);
    w, jobs := Evicts(w, jobs, tickets);
    tickets := tickets[OLD := Completed];
    w := Receives(w, jobs, tickets, LATE);
    tickets := tickets[LATE := Held(0)];
    w := Starts(w, jobs, tickets, LATE);
  }

  /** Both missing branches are reachable: the job to be marked running, and the job to be finished, are gone. */
  lemma MissingReachable() returns (marking: World, finishing: World)
    ensures Reachable(marking) && Enabled(marking, Work(0, WorkStep.MarkRunning))
    ensures JobOf(marking.server.value.workers[0]) == Some(LATE) && LATE !in marking.server.value.jobs
    ensures Reachable(finishing) && Enabled(finishing, Work(0, WorkStep.FinishLocked))
    ensures JobOf(finishing.server.value.workers[0]) == Some(LATE) && LATE !in finishing.server.value.jobs
  {
    var jobs, tickets;
    marking, jobs, tickets := ReachMarking();
    finishing := Infers(marking, jobs, tickets, LATE);
    finishing := Ends(finishing, MarkRunningIn(jobs, LATE, 0), tickets, [], LATE);
  }
}
