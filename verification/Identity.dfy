/** What a job was submitted as never changes: not in memory, not in the logs, not over crashes and restarts. */
module Identity {
  import opened Records
  import opened MetadataLog
  import opened CrashRecovery
  import opened JobTables
  import opened Protocol
  import opened ProtocolInvariants

  /** The part of a record that is fixed when its handler begins. */
  datatype Origin = Origin(createdAt: Stamp, submission: Submission)

  type Origins = map<JobId, Origin>

  predicate Knows(origins: Origins, record: JobRecord) {
    record.id in origins && origins[record.id] == Origin(record.createdAt, record.submission)
  }

  predicate KnowsLines(origins: Origins, lines: seq<JobRecord>) {
    forall record :: record in lines ==> Knows(origins, record)
  }

  predicate KnowsTable(origins: Origins, jobs: JobMap) {
    forall id :: id in jobs ==> jobs[id].id == id && Knows(origins, jobs[id])
  }

  predicate KnowsDisk(origins: Origins, disk: Disk) {
    KnowsLines(origins, disk.submissions) && KnowsLines(origins, disk.results)
  }

  predicate KnowsServer(origins: Origins, s: Server) {
    && KnowsTable(origins, s.jobs) && KnowsTable(origins, s.submitted)
    && (forall i :: 0 <= i < |s.workers| && s.workers[i].Persisting? ==> Knows(origins, s.workers[i].final))
  }

  predicate KnowsWorld(origins: Origins, w: World) {
    && origins.Keys <= w.used && KnowsDisk(origins, w.disk)
    && (w.server.Some? ==> KnowsServer(origins, w.server.value))
  }

  /** Nothing known is forgotten or changed. */
  predicate Extends(origins: Origins, more: Origins) {
    forall id :: id in origins ==> id in more && more[id] == origins[id]
  }

  lemma KnowsAppend(origins: Origins, lines: seq<JobRecord>, record: JobRecord)
    requires KnowsLines(origins, lines) && Knows(origins, record)
    ensures KnowsLines(origins, lines + [record])
  {
  }

  // ----- submit handlers and workers -----

  lemma BeginKnows(w: World, s: Server, id: JobId, record: JobRecord, origins: Origins) returns (more: Origins)
    requires w.server == Some(s) && SubmitEnabled(w, s, id, Begin(record)) && KnowsWorld(origins, w)
    ensures KnowsWorld(more, ApplySubmit(w, s, id, Begin(record))) && Extends(origins, more)
  {
    more := origins[id := Origin(record.createdAt, record.submission)];
    assert id !in origins;
  }

  lemma SubmitKnows(w: World, s: Server, id: JobId, step: SubmitStep, origins: Origins)
    requires w.server == Some(s) && SubmitEnabled(w, s, id, step) && !step.Begin? && KnowsWorld(origins, w)
    requires id in s.submitted
    ensures KnowsWorld(origins, ApplySubmit(w, s, id, step))
  {
    var record := CarriedRecord(s, id);
    KnowsAppend(origins, w.disk.submissions, record);
    KnowsAppend(origins, w.disk.results, Unqueued(record, RefusalMessage(s.tickets[id]), w.clock));
  }

  lemma UpdatesKnow(origins: Origins, jobs: JobMap, id: JobId, verdict: Verdict, now: Stamp)
    requires KnowsTable(origins, jobs)
    ensures KnowsTable(origins, MarkRunningIn(jobs, id, now)) && KnowsTable(origins, FinishIn(jobs, id, verdict, now))
  {
  }

  lemma WorkKnows(w: World, s: Server, i: nat, work: WorkStep, origins: Origins)
    requires w.server == Some(s) && WorkEnabled(s, i, work) && KnowsWorld(origins, w)
    ensures KnowsWorld(origins, ApplyWork(w, s, i, work))
  {
    match work
    case MarkRunning => UpdatesKnow(origins, s.jobs, s.workers[i].job, Failure(""), w.clock);
    case FinishLocked =>
      UpdatesKnow(origins, s.jobs, s.workers[i].job, VerdictOf(s.workers[i].ending, s.config), w.clock);
    case AppendResult => KnowsAppend(origins, w.disk.results, s.workers[i].final);
    case _ =>
  }

  // ----- restarts -----

  lemma LoadedKnown(disk: Disk, origins: Origins)
    requires KnowsDisk(origins, disk)
    ensures KnowsTable(origins, Loaded(disk))
  {
    LoadedKeys(disk);
    forall id | id in Loaded(disk)
      ensures Loaded(disk)[id].id == id && Knows(origins, Loaded(disk)[id])
    {
      LoadedMeaning(disk, id);
    }
  }

  lemma RecoveredKnown(disk: Disk, run: LoadRun, since: Stamp, origins: Origins)
    requires KnowsDisk(origins, disk) && Recovers(disk, run.recovered, since)
    ensures KnowsTable(origins, Recovered(disk, run)) && KnowsLines(origins, run.recovered)
  {
    LoadedKnown(disk, origins);
    RecoveredMeaning(disk, run, since);
    forall record | record in run.recovered
      ensures Knows(origins, record)
    {
      assert record.id in Loaded(disk);
    }
  }

  lemma RestartKnows(
    disk: Disk, metadataLimit: nat, jobLimit: nat, since: Stamp, run: LoadRun, writes: nat, origins: Origins)
    requires KnowsDisk(origins, disk) && ValidRun(disk, metadataLimit, jobLimit, since, run)
    requires writes <= |DurableStates(disk, metadataLimit, run)|
    ensures KnowsDisk(origins, StateAfter(disk, metadataLimit, run, writes))
    ensures KnowsTable(origins, Recovered(disk, run))
  {
    RecoveredKnown(disk, run, since, origins);
    StateAfterCases(disk, metadataLimit, run, writes);
    if writes > |run.recovered| {
      CompactionEmptiesSubmissions(disk, metadataLimit, jobLimit, since, run);
    } else {
      assert forall record :: record in run.recovered[..writes] ==> record in run.recovered;
    }
  }

  lemma BootKnows(w: World, config: Config, run: LoadRun, origins: Origins)
    requires KnowsWorld(origins, w) && Enabled(w, Restart(config, run))
    ensures KnowsWorld(origins, Apply(w, Restart(config, run)))
  {
    var writes := |DurableStates(w.disk, config.metadataLimit, run)|;
    RestartKnows(w.disk, config.metadataLimit, config.jobLimit, w.clock, run, writes, origins);
    FinalIsLast(w.disk, config.metadataLimit, run);
  }

  // ----- every run -----

  lemma StepKnows(w: World, e: Event, origins: Origins) returns (more: Origins)
    requires JobsInv(w) && Enabled(w, e) && KnowsWorld(origins, w)
    ensures KnowsWorld(more, Apply(w, e)) && Extends(origins, more)
  {
    more := origins;
    match e
    case Submit(id, step) =>
      assert ViewOK(id, ViewOf(w, w.server.value, id));
      if step.Begin? {
        more := BeginKnows(w, w.server.value, id, step.record, origins);
      } else {
        SubmitKnows(w, w.server.value, id, step, origins);
      }
    case Work(i, work) => WorkKnows(w, w.server.value, i, work, origins);
    case Restart(config, run) => BootKnows(w, config, run, origins);
    case InterruptedRestart(config, run, writes) =>
      RestartKnows(w.disk, config.metadataLimit, config.jobLimit, w.clock, run, writes, origins);
    case _ =>
  }

  lemma {:induction false} RunKnows(from: World, events: seq<Event>, to: World, origins: Origins) returns (more: Origins)
    requires JobsInv(from) && Runs(from, events, to) && KnowsWorld(origins, from)
    ensures KnowsWorld(more, to) && Extends(origins, more)
    decreases |events|
  {
    more := origins;
    if events != [] {
      more := StepKnows(from, events[0], origins);
      StepKeepsJobs(from, events[0]);
      more := RunKnows(Apply(from, events[0]), events[1..], to, more);
    }
  }

  /** In the table, or a line of either log. */
  predicate KnownIn(w: World, record: JobRecord) {
    || record in w.disk.submissions || record in w.disk.results
    || (w.server.Some? && record.id in w.server.value.jobs && w.server.value.jobs[record.id] == record)
  }

  lemma Initially()
    ensures JobsInv(INITIAL) && KnowsWorld(map[], INITIAL)
  {
  }

  /**
   * Over any run, crashes and restarts included, every record and every line of a job
   * has the creation time, the image, the task and the webhook it was submitted with.
   */
  lemma SubmissionNeverChanges(from: World, events: seq<Event>, to: World, earlier: JobRecord, later: JobRecord)
    requires Reachable(from) && Runs(from, events, to)
    requires KnownIn(from, earlier) && KnownIn(to, later) && earlier.id == later.id
    ensures SameJob(earlier, later)
  {
    var before :| Runs(INITIAL, before, from);
    Initially();
    var origins := RunKnows(INITIAL, before, from, map[]);
    ReachableJobs(from);
    var more := RunKnows(from, events, to, origins);
    assert Knows(origins, earlier) && Knows(more, later);
  }
}
