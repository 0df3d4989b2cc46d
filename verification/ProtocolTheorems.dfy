/** What the job protocol promises over every run, crashes and restarts included. */
module ProtocolTheorems {
  import opened Records
  import opened Retention
  import opened MetadataLog
  import opened CrashRecovery
  import opened Protocol
  import opened ProtocolInvariants

  // ----- conservation -----

  function Holders(s: Server, id: JobId): set<nat> {
    set i: nat | i < |s.workers| && JobOf(s.workers[i]) == Some(id)
  }

  /** Accepted in the life of the current process. */
  predicate AcceptedHere(w: World, s: Server, id: JobId) {
    id in s.tickets && id in w.accepted
  }

  lemma {:induction false} DistinctOnce(queue: seq<JobId>, id: JobId)
    requires forall i, j :: 0 <= i < j < |queue| ==> queue[i] != queue[j]
    ensures multiset(queue)[id] == One(id in queue)
  {
    if queue != [] {
      var n := |queue| - 1;
      DistinctOnce(queue[..n], id);
      assert queue == queue[..n] + [queue[n]];
    }
  }

  lemma QueuedOnce(s: Server, id: JobId)
    requires QueueOK(s)
    ensures multiset(s.queue)[id] == One(HasTicket(s, id, InQueue))
  {
    DistinctOnce(s.queue, id);
  }

  lemma HeldOnce(s: Server, id: JobId)
    requires HoldersOK(s)
    ensures |Holders(s, id)| == One(id in s.tickets && s.tickets[id].Held?)
  {
    forall i | i in Holders(s, id)
      ensures HasTicket(s, id, Held(i))
    {
      assert JobOf(s.workers[i]).Some?;
    }
    if id in s.tickets && s.tickets[id].Held? {
      assert Holders(s, id) == {s.tickets[id].worker};
    } else {
      assert Holders(s, id) == {};
    }
  }

  /**
   * Job conservation: in every reachable state a job this process accepted is queued
   * once, held by exactly one worker, or completed, and no other job is any of these.
   */
  lemma JobConservation(w: World, s: Server, id: JobId)
    requires Reachable(w) && w.server == Some(s)
    ensures multiset(s.queue)[id] + |Holders(s, id)| + One(HasTicket(s, id, Completed))
            == One(AcceptedHere(w, s, id))
  {
    ReachableJobs(w);
    QueuedOnce(s, id);
    HeldOnce(s, id);
    assert ViewOK(id, ViewOf(w, s, id));
  }

  /** The results log holds terminal records only, and at most one line per job, ever. */
  lemma OneTerminalLinePerJob(w: World)
    requires Reachable(w)
    ensures forall record :: record in w.disk.results ==> Terminal(record)
    ensures DistinctIds(w.disk.results) && DistinctIds(w.disk.submissions)
  {
    ReachableJobs(w);
  }

  // ----- status only moves forward -----

  function Rank(status: JobStatus): nat {
    match status
    case Queued => 0
    case Running => 1
    case Succeeded => 2
    case Failed => 2
  }

  /** `later` is a possible future of `earlier`: same job, no earlier stage, terminal records frozen. */
  predicate FutureOf(earlier: JobRecord, later: JobRecord) {
    && later.id == earlier.id && later.submission == earlier.submission && later.createdAt == earlier.createdAt
    && Rank(earlier.status) <= Rank(later.status)
    && (Terminal(earlier) ==> later == earlier)
  }

  /** Was in the table once, or will never enter it. */
  predicate Retired(w: World, s: Server, id: JobId) {
    id in w.used && id !in s.jobs && !HasTicket(s, id, Checked)
  }

  predicate KeepsProcess(e: Event) {
    !e.Crash? && !e.Restart? && !e.InterruptedRestart?
  }

  predicate StepForward(w: World, s: Server, w': World, s': Server, id: JobId) {
    && (id in s.jobs && id in s'.jobs ==>
          FutureOf(s.jobs[id], s'.jobs[id]) && Rank(s'.jobs[id].status) <= Rank(s.jobs[id].status) + 1)
    && (id in s.jobs && id !in s'.jobs ==> Retired(w', s', id))
    && (Retired(w, s, id) ==> Retired(w', s', id))
  }

  lemma SubmitForward(w: World, s: Server, target: JobId, step: SubmitStep, id: JobId)
    requires w.server == Some(s) && SubmitEnabled(w, s, target, step)
    requires ViewOK(id, ViewOf(w, s, id)) && ViewOK(target, ViewOf(w, s, target))
    ensures StepForward(w, s, ApplySubmit(w, s, target, step), ApplySubmit(w, s, target, step).server.value, id)
  {
  }

  lemma WorkForwardOpening(w: World, s: Server, i: nat, work: WorkStep, id: JobId)
    requires w.server == Some(s) && WorkEnabled(s, i, work)
    requires ViewOK(id, ViewOf(w, s, id))
    requires Subject(s, i, work).Some? ==>
               HasTicket(s, Subject(s, i, work).value, if work.Receive? then InQueue else Held(i))
    requires Opening(work)
    ensures StepForward(w, s, ApplyWork(w, s, i, work), ApplyWork(w, s, i, work).server.value, id)
  {
  }

  lemma WorkForwardFinishing(w: World, s: Server, i: nat, work: WorkStep, id: JobId)
    requires w.server == Some(s) && WorkEnabled(s, i, work)
    requires ViewOK(id, ViewOf(w, s, id))
    requires Subject(s, i, work).Some? ==>
               HasTicket(s, Subject(s, i, work).value, if work.Receive? then InQueue else Held(i))
    requires Finishing(work)
    ensures StepForward(w, s, ApplyWork(w, s, i, work), ApplyWork(w, s, i, work).server.value, id)
  {
  }

  lemma WorkForwardClosing(w: World, s: Server, i: nat, work: WorkStep, id: JobId)
    requires w.server == Some(s) && WorkEnabled(s, i, work)
    requires ViewOK(id, ViewOf(w, s, id))
    requires Subject(s, i, work).Some? ==>
               HasTicket(s, Subject(s, i, work).value, if work.Receive? then InQueue else Held(i))
    requires !Opening(work) && !Finishing(work)
    ensures StepForward(w, s, ApplyWork(w, s, i, work), ApplyWork(w, s, i, work).server.value, id)
  {
  }

  lemma WorkForward(w: World, s: Server, i: nat, work: WorkStep, id: JobId)
    requires w.server == Some(s) && WorkEnabled(s, i, work)
    requires ViewOK(id, ViewOf(w, s, id))
    requires Subject(s, i, work).Some? ==>
               HasTicket(s, Subject(s, i, work).value, if work.Receive? then InQueue else Held(i))
    ensures StepForward(w, s, ApplyWork(w, s, i, work), ApplyWork(w, s, i, work).server.value, id)
  {
    if Opening(work) {
      WorkForwardOpening(w, s, i, work, id);
    } else if Finishing(work) {
      WorkForwardFinishing(w, s, i, work, id);
    } else {
      WorkForwardClosing(w, s, i, work, id);
    }
  }

  lemma EventForward(w: World, e: Event, id: JobId)
    requires JobsInv(w) && Enabled(w, e) && KeepsProcess(e) && w.server.Some?
    ensures Apply(w, e).server.Some?
    ensures StepForward(w, w.server.value, Apply(w, e), Apply(w, e).server.value, id)
  {
    var s := w.server.value;
    assert ViewOK(id, ViewOf(w, s, id));
    match e
    case Submit(target, step) =>
      assert ViewOK(target, ViewOf(w, s, target));
      SubmitForward(w, s, target, step, id);
    case Work(i, work) =>
      WorkSubject(s, i, work);
      WorkForward(w, s, i, work, id);
    case _ =>
  }

  /**
   * Over any stretch of one process life: a job still in the table has only moved
   * forward, and a job that has left the table never comes back.
   */
  lemma {:induction false} StatusOnlyMovesForward(from: World, events: seq<Event>, to: World, id: JobId)
    requires JobsInv(from) && Runs(from, events, to) && from.server.Some?
    requires forall e :: e in events ==> KeepsProcess(e)
    ensures to.server.Some?
    ensures id in from.server.value.jobs && id in to.server.value.jobs ==>
              FutureOf(from.server.value.jobs[id], to.server.value.jobs[id])
    ensures id in from.server.value.jobs && id !in to.server.value.jobs ==> Retired(to, to.server.value, id)
    ensures Retired(from, from.server.value, id) ==> Retired(to, to.server.value, id)
    decreases |events|
  {
    if events != [] {
      var next := Apply(from, events[0]);
      EventForward(from, events[0], id);
      StepKeepsJobs(from, events[0]);
      StatusOnlyMovesForward(next, events[1..], to, id);
    }
  }

  // ----- what a restart makes of an interleaved run -----

  lemma LineDecides(disk: Disk, line: JobRecord)
    requires LogsOK(disk) && line in disk.results
    ensures line.id in Outcomes(disk) && Outcomes(disk)[line.id] == OutcomeOf(line)
  {
    LoadedLine(disk, line);
  }

  lemma SubmissionDecides(disk: Disk, id: JobId)
    requires LogsOK(disk) && id !in Ids(disk.results) && id in Ids(disk.submissions)
    ensures id in Outcomes(disk) && Outcomes(disk)[id] == Outcome(Failed, Some(RESTART_ERROR), None)
  {
    LoadedMeaning(disk, id);
  }

  /** Reading the logs of any reachable state: the results line, else a restart failure, else nothing. */
  lemma RestartMeaning(w: World, id: JobId)
    requires Reachable(w)
    ensures forall line :: line in w.disk.results && line.id == id ==>
              id in Outcomes(w.disk) && Outcomes(w.disk)[id] == OutcomeOf(line)
    ensures id !in Ids(w.disk.results) && id in Ids(w.disk.submissions) ==>
              id in Outcomes(w.disk) && Outcomes(w.disk)[id] == Outcome(Failed, Some(RESTART_ERROR), None)
    ensures id !in Ids(w.disk.results) && id !in Ids(w.disk.submissions) ==> id !in Outcomes(w.disk)
  {
    ReachableJobs(w);
    LoadedKeys(w.disk);
    forall line | line in w.disk.results && line.id == id
      ensures id in Outcomes(w.disk) && Outcomes(w.disk)[id] == OutcomeOf(line)
    {
      LineDecides(w.disk, line);
    }
    if id !in Ids(w.disk.results) && id in Ids(w.disk.submissions) {
      SubmissionDecides(w.disk, id);
    }
  }

  /** The map a complete restart builds before retention: the same, record by record. */
  lemma RestartBuilds(w: World, config: Config, run: LoadRun, id: JobId)
    requires Reachable(w) && Enabled(w, Restart(config, run))
    ensures id in Recovered(w.disk, run) <==> id in Outcomes(w.disk)
    ensures id in Recovered(w.disk, run) ==> OutcomeOf(Recovered(w.disk, run)[id]) == Outcomes(w.disk)[id]
    ensures forall line :: line in w.disk.results && line.id == id ==>
              id in Recovered(w.disk, run) && Recovered(w.disk, run)[id] == line
    ensures id in Recovered(w.disk, run) ==>
              id in Loaded(w.disk) && RecoveredFrom(Recovered(w.disk, run)[id], Loaded(w.disk)[id], w.clock)
  {
    ReachableJobs(w);
    RecoveredMeaning(w.disk, run, w.clock);
    forall line | line in w.disk.results && line.id == id
      ensures id in Recovered(w.disk, run) && Recovered(w.disk, run)[id] == line
    {
      LoadedLine(w.disk, line);
    }
  }

  /** The table a restarted process serves: a most-recent selection of that map, each record as it is there. */
  lemma RestartServes(w: World, config: Config, run: LoadRun)
    requires Reachable(w) && Enabled(w, Restart(config, run))
    ensures var w' := Apply(w, Restart(config, run));
            && w'.server.Some? && KeepsMostRecent(Recovered(w.disk, run), config.jobLimit, w'.server.value.jobs.Keys)
            && forall id :: id in w'.server.value.jobs ==>
                 && w'.server.value.jobs[id] == Recovered(w.disk, run)[id] && id in Outcomes(w.disk)
                 && OutcomeOf(w'.server.value.jobs[id]) == Outcomes(w.disk)[id]
  {
    RecoveredMeaning(w.disk, run, w.clock);
    RestrictSize(Recovered(w.disk, run), run.kept);
  }

  /** With one line per job, loading finds that line. */
  lemma LoadedLine(disk: Disk, line: JobRecord)
    requires LogsOK(disk) && line in disk.results
    ensures line.id in Loaded(disk) && Loaded(disk)[line.id] == line && Terminal(line)
  {
    ReplayDistinct(disk.results, Replay(disk.submissions, map[]));
    assert line.id in Ids(disk.results);
  }

  /** A finished job whose line reached the log is reported unchanged after a crash at any later moment. */
  lemma LoggedJobUnchangedByCrash(w: World, s: Server, config: Config, run: LoadRun, id: JobId)
    requires Reachable(w) && w.server == Some(s) && id in s.jobs && id in Ids(w.disk.results)
    requires Enabled(Apply(w, Crash), Restart(config, run))
    ensures Terminal(s.jobs[id])
    ensures id in Recovered(w.disk, run) && Recovered(w.disk, run)[id] == s.jobs[id]
  {
    ReachableJobs(w);
    assert ViewOK(id, ViewOf(w, s, id));
    var line :| line in w.disk.results && line.id == id;
    assert line in Lines(w.disk.results, id);
    Extend(w, Crash);
    RestartBuilds(Apply(w, Crash), config, run, id);
    RestartMeaning(w, id);
  }

  /**
   * A terminal status seen in memory is what a restart would report exactly when its
   * line is in the results log, or when it is the restart failure of a logged submission.
   */
  lemma TerminalDurableIff(w: World, s: Server, id: JobId)
    requires Reachable(w) && w.server == Some(s) && id in s.jobs && Terminal(s.jobs[id])
    ensures id in Outcomes(w.disk) && Outcomes(w.disk)[id] == OutcomeOf(s.jobs[id])
            <==> id in Ids(w.disk.results)
                 || (id in Ids(w.disk.submissions)
                     && OutcomeOf(s.jobs[id]) == Outcome(Failed, Some(RESTART_ERROR), None))
  {
    RestartMeaning(w, id);
    if id in Ids(w.disk.results) {
      LoggedAgrees(w, s, id);
    }
  }

  lemma LoggedAgrees(w: World, s: Server, id: JobId)
    requires Reachable(w) && w.server == Some(s) && id in s.jobs && id in Ids(w.disk.results)
    ensures s.jobs[id] in w.disk.results && s.jobs[id].id == id
  {
    ReachableJobs(w);
    assert ViewOK(id, ViewOf(w, s, id));
    var line :| line in w.disk.results && line.id == id;
    assert line in Lines(w.disk.results, id);
  }

  /**
   * Crash-safe recovery of the server's own logs: whatever run wrote them, and however
   * often restarts crash before one completes, no surviving job changes its outcome.
   */
  lemma CrashSafeServer(w: World, attempts: seq<Attempt>, last: Attempt, direct: Attempt)
    requires Reachable(w)
    requires ValidAttempts(w.disk, attempts) && ValidAttempt(AfterAttempts(w.disk, attempts), last)
    requires ValidAttempt(w.disk, direct)
    ensures Reports(LoadedTable(AfterAttempts(w.disk, attempts), last.run), Outcomes(w.disk))
    ensures Reports(LoadedTable(w.disk, direct.run), Outcomes(w.disk))
    ensures RoomFor(|Outcomes(w.disk)|, attempts) ==> Outcomes(AfterAttempts(w.disk, attempts)) == Outcomes(w.disk)
  {
    ReachableJobs(w);
    LogsRedundant(w.disk);
    CrashSafeRecovery(w.disk, attempts, last, direct);
    AttemptsKeepOutcomes(w.disk, attempts);
  }

  // ----- durability of acceptance -----

  /** An accepted job is never forgotten, unless compaction dropped it. */
  lemma AcceptedIsDurable(w: World, id: JobId)
    requires Reachable(w) && id in w.accepted
    ensures id in Outcomes(w.disk) || id in w.truncated
  {
    ReachableJobs(w);
    LoadedKeys(w.disk);
  }

  /** Compaction leaves `id` out because it keeps `limit` records, all no older. */
  predicate CompactedBehind(disk: Disk, limit: nat, run: LoadRun, id: JobId) {
    && limit > 0 && id in Recovered(disk, run) && id !in Ids(run.recent)
    && |run.recent| == limit < |Recovered(disk, run)|
    && forall record :: record in run.recent ==> Recovered(disk, run)[id].updatedAt <= record.updatedAt
  }

  /** A restart that gets past its results rename and drops `id` there. */
  predicate CompactsAway(w: World, e: Event, id: JobId) {
    match e
    case Restart(config, run) => CompactedBehind(w.disk, config.metadataLimit, run, id)
    case InterruptedRestart(config, run, writes) =>
      Compacted(w.disk, config.metadataLimit, run, writes) && CompactedBehind(w.disk, config.metadataLimit, run, id)
    case _ => false
  }

  lemma LostBehind(w: World, limit: nat, jobLimit: nat, run: LoadRun, writes: nat, id: JobId)
    requires LogsOK(w.disk) && ValidRun(w.disk, limit, jobLimit, w.clock, run)
    requires writes <= |DurableStates(w.disk, limit, run)|
    requires id in Loaded(w.disk) && id !in Loaded(StateAfter(w.disk, limit, run, writes))
    ensures Compacted(w.disk, limit, run, writes) && CompactedBehind(w.disk, limit, run, id)
  {
    LogsRedundant(w.disk);
    VanishOnlyByTruncation(w.disk, limit, jobLimit, w.clock, run, writes, id);
  }

  lemma StepTruncatesOthers(w: World, e: Event)
    requires Enabled(w, e) && !e.Restart? && !e.InterruptedRestart?
    ensures Apply(w, e).truncated == w.truncated
  {
  }

  /** The history of lost ids means what it says: an event that adds one has compacted it away. */
  lemma OnlyCompactionTruncates(w: World, e: Event, id: JobId)
    requires JobsInv(w) && Enabled(w, e) && id !in w.truncated && id in Apply(w, e).truncated
    ensures CompactsAway(w, e, id)
  {
    match e
    case Restart(config, run) =>
      var writes := |DurableStates(w.disk, config.metadataLimit, run)|;
      FinalIsLast(w.disk, config.metadataLimit, run);
      LostBehind(w, config.metadataLimit, config.jobLimit, run, writes, id);
    case InterruptedRestart(config, run, writes) =>
      LostBehind(w, config.metadataLimit, config.jobLimit, run, writes, id);
    case _ => StepTruncatesOthers(w, e);
  }

  lemma {:induction false} TruncatedInRun(from: World, events: seq<Event>, to: World, id: JobId)
    returns (before: World, e: Event)
    requires Reachable(from) && Runs(from, events, to) && id !in from.truncated && id in to.truncated
    ensures e in events && Reachable(before) && Enabled(before, e) && CompactsAway(before, e, id)
    decreases |events|
  {
    var next := Apply(from, events[0]);
    if id in next.truncated {
      before, e := from, events[0];
      ReachableJobs(from);
      OnlyCompactionTruncates(from, events[0], id);
    } else {
      Extend(from, events[0]);
      before, e := TruncatedInRun(next, events[1..], to, id);
    }
  }

  /** An accepted job that the logs no longer know was dropped by a compaction of this very run. */
  lemma AcceptedLostOnlyByCompaction(events: seq<Event>, w: World, id: JobId) returns (before: World, e: Event)
    requires Runs(INITIAL, events, w) && id in w.accepted && id !in Outcomes(w.disk)
    ensures e in events && Reachable(before) && Enabled(before, e) && CompactsAway(before, e, id)
  {
    AcceptedIsDurable(w, id);
    assert Runs(INITIAL, [], INITIAL);
    before, e := TruncatedInRun(INITIAL, events, w, id);
  }

  predicate NeverCompacts(e: Event) {
    && (e.Restart? ==> e.config.metadataLimit == 0)
    && (e.InterruptedRestart? ==> e.config.metadataLimit == 0)
  }

  lemma StepTruncates(w: World, e: Event)
    requires JobsInv(w) && Enabled(w, e) && NeverCompacts(e)
    ensures Apply(w, e).truncated == w.truncated
  {
    match e
    case Restart(config, run) =>
      var writes := |DurableStates(w.disk, 0, run)|;
      LogsRedundant(w.disk);
      FinalIsLast(w.disk, 0, run);
      InterruptedLoad(w.disk, 0, config.jobLimit, w.clock, run, writes);
      assert Outcomes(FinalDisk(w.disk, 0, run)).Keys == Outcomes(w.disk).Keys;
    case InterruptedRestart(config, run, writes) =>
      LogsRedundant(w.disk);
      InterruptedLoad(w.disk, 0, config.jobLimit, w.clock, run, writes);
      assert Outcomes(StateAfter(w.disk, 0, run, writes)).Keys == Outcomes(w.disk).Keys;
    case Submit(id, step) =>
    case Work(i, work) =>
    case _ =>
  }

  lemma {:induction false} RunTruncates(from: World, events: seq<Event>, to: World)
    requires JobsInv(from) && Runs(from, events, to)
    requires forall e :: e in events ==> NeverCompacts(e)
    ensures to.truncated == from.truncated
    decreases |events|
  {
    if events != [] {
      StepTruncates(from, events[0]);
      StepKeepsJobs(from, events[0]);
      RunTruncates(Apply(from, events[0]), events[1..], to);
    }
  }

  /** With compaction off no accepted job is ever lost, over any run with any number of crashes. */
  lemma NoCompactionNoLoss(events: seq<Event>, w: World, id: JobId)
    requires Runs(INITIAL, events, w) && id in w.accepted
    requires forall e :: e in events ==> NeverCompacts(e)
    ensures id in Outcomes(w.disk)
  {
    RunTruncates(INITIAL, events, w);
    AcceptedIsDurable(w, id);
  }

  // ----- eviction -----

  /** `mark_running` and `finish_job` miss their record only if retention evicted it. */
  lemma MissingMeansEvicted(w: World, s: Server, i: nat)
    requires Reachable(w) && w.server == Some(s) && i < |s.workers| && JobOf(s.workers[i]).Some?
    ensures JobOf(s.workers[i]).value !in s.jobs <==> JobOf(s.workers[i]).value in s.evicted
  {
    ReachableJobs(w);
    var job := JobOf(s.workers[i]).value;
    assert HasTicket(s, job, Held(i));
    assert ViewOK(job, ViewOf(w, s, job));
  }

  /** Only retention evicts, and only behind `jobLimit` records no older than the victim. */
  lemma EvictionBehindNewer(w: World, s: Server, e: Event, id: JobId)
    requires w.server == Some(s) && Enabled(w, e) && KeepsProcess(e)
    requires id in Apply(w, e).server.value.evicted && id !in s.evicted
    ensures e.Work? && e.work.Retain?
    ensures id in s.jobs && |e.work.kept| == s.config.jobLimit
    ensures forall other :: other in e.work.kept ==>
              other in s.jobs && other != id && s.jobs[id].updatedAt <= s.jobs[other].updatedAt
  {
    match e
    case Submit(target, step) =>
    case Work(i, work) =>
      if work.Retain? {
        EvictionNeedsNewerRecords(s.jobs, s.config.jobLimit, work.kept, id);
      }
    case _ =>
  }

  /** While every job ever submitted fits the table, nothing is evicted. */
  ghost predicate Roomy(w: World, n: nat) {
    w.server.Some? ==> w.server.value.evicted == {} && n <= w.server.value.config.jobLimit
  }

  predicate RoomyRestart(e: Event, n: nat) {
    e.Restart? ==> n <= e.config.jobLimit
  }

  lemma UsedGrows(w: World, e: Event)
    requires Enabled(w, e)
    ensures w.used <= Apply(w, e).used
  {
  }

  lemma {:induction false} RunUsedGrows(from: World, events: seq<Event>, to: World)
    requires Runs(from, events, to)
    ensures from.used <= to.used && |from.used| <= |to.used|
    decreases |events|
  {
    if events != [] {
      UsedGrows(from, events[0]);
      RunUsedGrows(Apply(from, events[0]), events[1..], to);
    }
    SubsetSize(from.used, to.used);
  }

  lemma TableWithinUsed(w: World, s: Server)
    requires IdsOK(w, s)
    ensures s.jobs.Keys <= w.used && |s.jobs| <= |w.used|
  {
    forall id | id in s.jobs
      ensures id in w.used
    {
      assert ViewOK(id, ViewOf(w, s, id));
    }
    SubsetSize(s.jobs.Keys, w.used);
  }

  lemma RetainKeepsRoom(w: World, i: nat, kept: set<JobId>, n: nat)
    requires JobsInv(w) && Enabled(w, Work(i, Retain(kept))) && Roomy(w, n) && |w.used| <= n
    ensures Roomy(Apply(w, Work(i, Retain(kept))), n)
  {
    var s := w.server.value;
    TableWithinUsed(w, s);
    NothingDropped(s.jobs, s.config.jobLimit, kept);
  }

  lemma WorkKeepsRoom(w: World, i: nat, work: WorkStep, n: nat)
    requires Enabled(w, Work(i, work)) && !work.Retain? && Roomy(w, n)
    ensures Roomy(Apply(w, Work(i, work)), n)
  {
  }

  lemma SubmitKeepsRoom(w: World, id: JobId, step: SubmitStep, n: nat)
    requires Enabled(w, Submit(id, step)) && Roomy(w, n)
    ensures Roomy(Apply(w, Submit(id, step)), n)
  {
  }

  lemma StepKeepsRoom(w: World, e: Event, n: nat)
    requires JobsInv(w) && Enabled(w, e) && Roomy(w, n) && RoomyRestart(e, n) && |w.used| <= n
    ensures Roomy(Apply(w, e), n)
  {
    match e
    case Submit(id, step) => SubmitKeepsRoom(w, id, step, n);
    case Work(i, work) =>
      if work.Retain? {
        RetainKeepsRoom(w, i, work.kept, n);
      } else {
        WorkKeepsRoom(w, i, work, n);
      }
    case _ =>
  }

  lemma {:induction false} RunKeepsRoom(from: World, events: seq<Event>, to: World, n: nat)
    requires JobsInv(from) && Runs(from, events, to) && Roomy(from, n) && |to.used| <= n
    requires forall e :: e in events ==> RoomyRestart(e, n)
    ensures Roomy(to, n)
    decreases |events|
  {
    if events != [] {
      RunUsedGrows(from, events, to);
      StepKeepsRoom(from, events[0], n);
      StepKeepsJobs(from, events[0]);
      RunKeepsRoom(Apply(from, events[0]), events[1..], to, n);
    }
  }

  /**
   * If no more jobs were ever submitted than the table may keep, `mark_running` and
   * `finish_job` always find their record.
   */
  lemma EnoughRoomNothingMissing(events: seq<Event>, w: World, s: Server, i: nat)
    requires Runs(INITIAL, events, w) && w.server == Some(s)
    requires forall e :: e in events ==> RoomyRestart(e, |w.used|)
    requires i < |s.workers| && JobOf(s.workers[i]).Some?
    ensures s.evicted == {} && JobOf(s.workers[i]).value in s.jobs
  {
    RunKeepsRoom(INITIAL, events, w, |w.used|);
    MissingMeansEvicted(w, s, i);
  }

  lemma Extend(w: World, e: Event)
    requires Reachable(w) && Enabled(w, e)
    ensures Reachable(Apply(w, e))
  {
    var events :| Runs(INITIAL, events, w);
    RunsSnoc(INITIAL, events, w, e);
  }

  lemma {:induction false} RunsSnoc(from: World, events: seq<Event>, w: World, e: Event)
    requires Runs(from, events, w) && Enabled(w, e)
    ensures Runs(from, events + [e], Apply(w, e))
    decreases |events|
  {
    var longer := events + [e];
    if events == [] {
      assert longer[0] == e && longer[1..] == [];
    } else {
      assert longer[0] == events[0] && longer[1..] == events[1..] + [e];
      RunsSnoc(Apply(from, events[0]), events[1..], w, e);
    }
  }
}
