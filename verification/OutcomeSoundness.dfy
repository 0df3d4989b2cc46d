/** Status, result and error of a record always agree, in memory and in the logs. */
module OutcomeSoundness {
  import opened Records
  import opened MetadataLog
  import opened CrashRecovery
  import opened JobTables
  import opened Protocol
  import opened ProtocolInvariants

  /** A result exactly when the job succeeded, an error exactly when it failed. */
  predicate Sound(record: JobRecord) {
    (record.result.Some? <==> record.status.Succeeded?) && (record.error.Some? <==> record.status.Failed?)
  }

  predicate SoundLines(lines: seq<JobRecord>) {
    forall record :: record in lines ==> Sound(record)
  }

  predicate SoundTable(jobs: JobMap) {
    forall id :: id in jobs ==> Sound(jobs[id])
  }

  predicate SoundDisk(disk: Disk) {
    SoundLines(disk.submissions) && SoundLines(disk.results)
  }

  predicate SoundServer(s: Server) {
    && SoundTable(s.jobs)
    && (forall i :: 0 <= i < |s.workers| && s.workers[i].Persisting? ==> Sound(s.workers[i].final))
  }

  predicate SoundInv(w: World) {
    SoundDisk(w.disk) && (w.server.Some? ==> SoundServer(w.server.value))
  }

  lemma SoundAppend(lines: seq<JobRecord>, record: JobRecord)
    requires SoundLines(lines) && Sound(record)
    ensures SoundLines(lines + [record])
  {
  }

  // ----- submit handlers and workers -----

  lemma SubmitKeepsSound(w: World, s: Server, id: JobId, step: SubmitStep)
    requires w.server == Some(s) && SubmitEnabled(w, s, id, step)
    requires ViewOK(id, ViewOf(w, s, id)) && SoundInv(w)
    ensures SoundInv(ApplySubmit(w, s, id, step))
  {
    var record := CarriedRecord(s, id);
    if !step.Begin? {
      assert FreshlyQueued(record);
      SoundAppend(w.disk.submissions, record);
      SoundAppend(w.disk.results, Unqueued(record, RefusalMessage(s.tickets[id]), w.clock));
    }
  }

  lemma MarkingKeepsSound(jobs: JobMap, id: JobId, now: Stamp)
    requires SoundTable(jobs)
    requires id in jobs ==> FreshlyQueued(jobs[id])
    ensures SoundTable(MarkRunningIn(jobs, id, now))
  {
  }

  /** Success replaces a missing result, failure a missing error: the record was running. */
  lemma FinishingKeepsSound(jobs: JobMap, id: JobId, verdict: Verdict, now: Stamp)
    requires SoundTable(jobs)
    requires id in jobs ==> jobs[id].status.Running?
    ensures SoundTable(FinishIn(jobs, id, verdict, now))
  {
  }

  /** What a worker's step needs to know of its own job's record. */
  predicate RecordFits(s: Server, i: nat, work: WorkStep)
    requires WorkEnabled(s, i, work)
  {
    && (work.MarkRunning? && s.workers[i].job in s.jobs ==> FreshlyQueued(s.jobs[s.workers[i].job]))
    && (work.FinishLocked? && s.workers[i].job in s.jobs ==> s.jobs[s.workers[i].job].status.Running?)
  }

  lemma JobFits(w: World, s: Server, i: nat, work: WorkStep)
    requires w.server == Some(s) && WorkEnabled(s, i, work) && JobsInv(w)
    ensures RecordFits(s, i, work)
  {
    if JobOf(s.workers[i]).Some? {
      var job := JobOf(s.workers[i]).value;
      assert HasTicket(s, job, Held(i));
      assert ViewOK(job, ViewOf(w, s, job));
    }
  }

  lemma WorkKeepsSound(w: World, s: Server, i: nat, work: WorkStep)
    requires w.server == Some(s) && WorkEnabled(s, i, work)
    requires RecordFits(s, i, work) && SoundInv(w)
    ensures SoundInv(ApplyWork(w, s, i, work))
  {
    match work
    case MarkRunning => MarkingKeepsSound(s.jobs, s.workers[i].job, w.clock);
    case FinishLocked =>
      FinishingKeepsSound(s.jobs, s.workers[i].job, VerdictOf(s.workers[i].ending, s.config), w.clock);
    case AppendResult => SoundAppend(w.disk.results, s.workers[i].final);
    case _ =>
  }

  // ----- restarts -----

  lemma LoadedIsSound(disk: Disk)
    requires SoundDisk(disk)
    ensures SoundTable(Loaded(disk))
  {
    forall id | id in Loaded(disk)
      ensures Sound(Loaded(disk)[id])
    {
      LoadedMeaning(disk, id);
    }
  }

  lemma RecoveredIsSound(disk: Disk, recovered: seq<JobRecord>, since: Stamp)
    requires SoundDisk(disk) && Recovers(disk, recovered, since)
    ensures SoundLines(disk.results + recovered)
  {
    LoadedIsSound(disk);
    forall record | record in recovered
      ensures Sound(record)
    {
      assert record.id in Live(disk);
    }
  }

  lemma SelectionIsSound(jobs: JobMap, recent: seq<JobRecord>)
    requires SoundTable(jobs) && forall record :: record in recent ==> record.id in jobs && jobs[record.id] == record
    ensures SoundLines(recent)
  {
  }

  lemma RestartKeepsSound(disk: Disk, metadataLimit: nat, jobLimit: nat, since: Stamp, run: LoadRun, writes: nat)
    requires SoundDisk(disk) && ValidRun(disk, metadataLimit, jobLimit, since, run)
    requires writes <= |DurableStates(disk, metadataLimit, run)|
    ensures SoundDisk(StateAfter(disk, metadataLimit, run, writes))
    ensures SoundTable(Recovered(disk, run))
  {
    RecoveredIsSound(disk, run.recovered, since);
    LoadedIsSound(Disk(disk.submissions, disk.results + run.recovered));
    StateAfterCases(disk, metadataLimit, run, writes);
    if writes > |run.recovered| {
      CompactionEmptiesSubmissions(disk, metadataLimit, jobLimit, since, run);
      SelectionIsSound(Recovered(disk, run), run.recent);
    } else {
      assert run.recovered == run.recovered[..writes] + run.recovered[writes..];
      assert forall record :: record in run.recovered[..writes] ==> record in disk.results + run.recovered;
    }
  }

  lemma BootKeepsSound(w: World, config: Config, run: LoadRun)
    requires SoundDisk(w.disk) && Enabled(w, Restart(config, run))
    ensures SoundInv(Apply(w, Restart(config, run)))
  {
    var writes := |DurableStates(w.disk, config.metadataLimit, run)|;
    RestartKeepsSound(w.disk, config.metadataLimit, config.jobLimit, w.clock, run, writes);
    FinalIsLast(w.disk, config.metadataLimit, run);
  }

  // ----- every run -----

  lemma StepKeepsSound(w: World, e: Event)
    requires JobsInv(w) && SoundInv(w) && Enabled(w, e)
    ensures SoundInv(Apply(w, e))
  {
    match e
    case Submit(id, step) =>
      assert ViewOK(id, ViewOf(w, w.server.value, id));
      SubmitKeepsSound(w, w.server.value, id, step);
    case Work(i, work) =>
      JobFits(w, w.server.value, i, work);
      WorkKeepsSound(w, w.server.value, i, work);
    case Restart(config, run) => BootKeepsSound(w, config, run);
    case InterruptedRestart(config, run, writes) =>
      RestartKeepsSound(w.disk, config.metadataLimit, config.jobLimit, w.clock, run, writes);
    case _ =>
  }

  lemma {:induction false} RunKeepsSound(from: World, events: seq<Event>, to: World)
    requires JobsInv(from) && SoundInv(from) && Runs(from, events, to)
    ensures SoundInv(to)
    decreases |events|
  {
    if events != [] {
      StepKeepsJobs(from, events[0]);
      StepKeepsSound(from, events[0]);
      RunKeepsSound(Apply(from, events[0]), events[1..], to);
    }
  }

  /**
   * In every reachable state, every record in the table and every line of either log
   * has a result exactly if it succeeded and an error exactly if it failed.
   */
  lemma EveryRecordIsSound(w: World, record: JobRecord)
    requires Reachable(w)
    requires record in w.disk.submissions + w.disk.results
             || (w.server.Some? && record.id in w.server.value.jobs && w.server.value.jobs[record.id] == record)
    ensures record.result.Some? <==> record.status.Succeeded?
    ensures record.error.Some? <==> record.status.Failed?
  {
    var events :| Runs(INITIAL, events, w);
    InitialJobs();
    RunKeepsSound(INITIAL, events, w);
  }

  lemma InitialJobs()
    ensures JobsInv(INITIAL) && SoundInv(INITIAL)
  {
  }
}
