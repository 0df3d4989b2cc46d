/** The shared job table and the lock regions that change it. */
module JobTables {
  import opened Records
  import opened Retention
  import opened MetadataLog

  /** How an inference ended, as `finish_job` sees it. */
  datatype Verdict = Success(metadata: InferenceMetadata) | Failure(message: string)

  function Running(record: JobRecord, now: Stamp): JobRecord {
    record.(status := JobStatus.Running, updatedAt := now)
  }

  /** A failure keeps whatever result the record had. */
  function Finish(record: JobRecord, verdict: Verdict, now: Stamp): JobRecord {
    match verdict
    case Success(metadata) =>
      record.(status := Succeeded, updatedAt := now, result := Some(metadata), error := None)
    case Failure(message) =>
      record.(status := Failed, updatedAt := now, error := Some(message))
  }

  /** The line written for a submission that could not be queued. */
  function Unqueued(record: JobRecord, message: string, now: Stamp): JobRecord {
    record.(status := Failed, updatedAt := now, error := Some(message))
  }

  function MarkRunningIn(jobs: JobMap, id: JobId, now: Stamp): JobMap {
    if id in jobs then jobs[id := Running(jobs[id], now)] else jobs
  }

  function FinishIn(jobs: JobMap, id: JobId, verdict: Verdict, now: Stamp): JobMap {
    if id in jobs then jobs[id := Finish(jobs[id], verdict, now)] else jobs
  }

  class JobTable {
    var jobs: JobMap

    constructor ()
      ensures jobs == map[]
    {
      jobs := map[];
    }

    /** Reading one log: every line overwrites the entry of its id. */
    method LoadRecords(lines: seq<JobRecord>)
      modifies this
      ensures jobs == Replay(lines, old(jobs))
    {
      for i := 0 to |lines|
        invariant jobs == Replay(lines[..i], old(jobs))
      {
        assert lines[..i + 1][..i] == lines[..i];
        jobs := jobs[lines[i].id := lines[i]];
      }
      assert lines[..|lines|] == lines;
    }

    /** Marks every unfinished job failed, in whatever order the map yields them. */
    method RecoverUnfinished(now: Stamp, ghost disk: Disk) returns (recovered: seq<JobRecord>, later: Stamp)
      requires jobs == Loaded(disk)
      modifies this
      ensures Recovers(disk, recovered, now) && now <= later
      ensures jobs.Keys == old(jobs).Keys && forall id :: id in jobs ==> RecoveredFrom(jobs[id], old(jobs)[id], now)
      ensures jobs == Loaded(Disk(disk.submissions, disk.results + recovered))
    {
      LoadedKeys(disk);
      ghost var loaded := jobs;
      recovered, later := [], now;
      NothingRecovered(loaded, now);
      var left := jobs.Keys;
      while left != {}
        invariant now <= later
        invariant PartlyRecovered(loaded, jobs, left, recovered, now)
        decreases |left|
      {
        var id :| id in left;
        assert left == (left - {id}) + {id};
        left := left - {id};
        if !Terminal(jobs[id]) {
          later :| later >= now;
          RecoverOne(loaded, jobs, left, recovered, now, id, later);
          jobs := jobs[id := RestartFailed(jobs[id], later)];
          recovered := recovered + [jobs[id]];
        } else {
          SkipTerminal(loaded, jobs, left, recovered, now, id);
        }
      }
      RecoveryComplete(disk, recovered, jobs, now);
    }

    /** `enqueue_record` under the write lock. */
    method Insert(record: JobRecord)
      modifies this
      ensures jobs == old(jobs)[record.id := record]
    {
      jobs := jobs[record.id := record];
    }

    /** `rollback_unqueued_record` under the write lock. */
    method Remove(id: JobId)
      modifies this
      ensures jobs == old(jobs) - {id}
    {
      jobs := jobs - {id};
    }

    method MarkRunning(id: JobId, now: Stamp)
      modifies this
      ensures jobs == MarkRunningIn(old(jobs), id, now)
      ensures jobs.Keys == old(jobs).Keys && forall other :: other in jobs && other != id ==> jobs[other] == old(jobs)[other]
      ensures id in jobs ==>
                && SameJob(jobs[id], old(jobs)[id]) && jobs[id].status.Running? && jobs[id].updatedAt == now
                && jobs[id].result == old(jobs)[id].result && jobs[id].error == old(jobs)[id].error
    {
      if id in jobs {
        var record := jobs[id];
        record := record.(status := JobStatus.Running);
        record := record.(updatedAt := now);
        jobs := jobs[id := record];
      }
    }

    /** The first lock region of `finish_job`; a missing job leaves nothing to persist. */
    method FinishLocked(id: JobId, verdict: Verdict, now: Stamp) returns (final: Option<JobRecord>)
      modifies this
      ensures jobs == FinishIn(old(jobs), id, verdict, now)
      ensures final == if id in jobs then Some(jobs[id]) else None
      ensures final.Some? ==>
                && final.value.updatedAt == now && SameJob(final.value, old(jobs)[id])
                && OutcomeOf(final.value) ==
                   match verdict
                   case Success(metadata) => Outcome(Succeeded, None, Some(metadata))
                   case Failure(message) => Outcome(Failed, Some(message), old(jobs)[id].result)
    {
      final := None;
      if id in jobs {
        var record := jobs[id].(updatedAt := now);
        match verdict {
          case Success(metadata) =>
            record := record.(status := Succeeded);
            record := record.(result := Some(metadata));
            record := record.(error := None);
          case Failure(message) =>
            record := record.(status := Failed);
            record := record.(error := Some(message));
        }
        jobs := jobs[id := record];
        final := Some(record);
      }
    }

    /** `retain_recent_jobs`; a limit of zero empties the table. */
    method RetainRecent(limit: nat) returns (ghost kept: set<JobId>)
      requires KeyedById(jobs)
      modifies this
      ensures KeepsMostRecent(old(jobs), limit, kept)
      ensures jobs == Restrict(old(jobs), kept)
    {
      kept := jobs.Keys;
      if |jobs| <= limit {
        return;
      }
      if limit == 0 {
        kept := {};
        jobs := map[];
        return;
      }
      var recent := RecentRecords(jobs, limit);
      RecentListKeeps(jobs, limit, recent);
      var keep := Ids(recent);
      jobs := map id | id in jobs && id in keep :: jobs[id];
      kept := keep;
    }
  }

  /** The recovery loop with the ids in `left` still to visit. */
  ghost predicate PartlyRecovered(
    loaded: JobMap, jobs: JobMap, left: set<JobId>, recovered: seq<JobRecord>, since: Stamp)
  {
    && KeyedById(loaded) && jobs.Keys == loaded.Keys && left <= jobs.Keys
    && DistinctIds(recovered)
    && (forall id :: id in jobs && (id in left || Terminal(loaded[id])) ==> jobs[id] == loaded[id])
    && (forall id :: id in jobs && id !in left && !Terminal(loaded[id]) ==> id in Ids(recovered))
    && (forall record :: record in recovered ==>
          && record.id in loaded && !Terminal(loaded[record.id]) && record.id !in left
          && jobs[record.id] == record && since <= record.updatedAt
          && record == RestartFailed(loaded[record.id], record.updatedAt))
  }

  lemma NothingRecovered(loaded: JobMap, since: Stamp)
    requires KeyedById(loaded)
    ensures PartlyRecovered(loaded, loaded, loaded.Keys, [], since)
  {
  }

  lemma SkipTerminal(
    loaded: JobMap, jobs: JobMap, left: set<JobId>, recovered: seq<JobRecord>, since: Stamp, id: JobId)
    requires id !in left && PartlyRecovered(loaded, jobs, left + {id}, recovered, since) && Terminal(jobs[id])
    ensures PartlyRecovered(loaded, jobs, left, recovered, since)
  {
  }

  lemma RecoverOne(
    loaded: JobMap, jobs: JobMap, left: set<JobId>, recovered: seq<JobRecord>, since: Stamp, id: JobId, later: Stamp)
    requires id !in left && PartlyRecovered(loaded, jobs, left + {id}, recovered, since)
    requires !Terminal(jobs[id]) && since <= later
    ensures var record := RestartFailed(jobs[id], later);
            PartlyRecovered(loaded, jobs[id := record], left, recovered + [record], since)
  {
    var record := RestartFailed(jobs[id], later);
    assert record.id == id;
    IdsOfConcat(recovered, [record]);
    assert record in [record];
    forall k | 0 <= k < |recovered|
      ensures recovered[k].id != id
    {
      assert recovered[k] in recovered;
    }
  }

  /** The recovery loop's end state is the map the extended log would load. */
  lemma RecoveryComplete(disk: Disk, recovered: seq<JobRecord>, jobs: JobMap, since: Stamp)
    requires PartlyRecovered(Loaded(disk), jobs, {}, recovered, since)
    ensures Recovers(disk, recovered, since)
    ensures jobs == Loaded(Disk(disk.submissions, disk.results + recovered))
    ensures forall id :: id in jobs ==> RecoveredFrom(jobs[id], Loaded(disk)[id], since)
  {
    AppendOverlays(disk, recovered);
    var extended := Loaded(Disk(disk.submissions, disk.results + recovered));
    assert Ids(recovered) == Live(disk);
    forall id | id in jobs
      ensures RecoveredFrom(jobs[id], Loaded(disk)[id], since)
    {
      if id in Ids(recovered) {
        var record :| record in recovered && record.id == id;
      }
    }
    assert extended.Keys == jobs.Keys;
    forall id | id in jobs
      ensures jobs[id] == extended[id]
    {
      if id in Ids(recovered) {
        var record :| record in recovered && record.id == id;
      }
    }
  }
}
