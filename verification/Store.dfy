/** The restart procedure itself, over a disk that remembers every durable state it passed through. */
module Store {
  import opened Records
  import opened Retention
  import opened MetadataLog
  import opened JobTables

  class MetadataStore {
    var submissions: seq<JobRecord>
    var results: seq<JobRecord>
    // The temporary files; nothing reads them until they are renamed into place.
    var submissionsTmp: seq<JobRecord>
    var resultsTmp: seq<JobRecord>
    // Durable states after each write, oldest first: the places a crash can land.
    ghost var history: seq<Disk>

    constructor (disk: Disk)
      ensures OnDisk() == disk && history == []
    {
      submissions, results := disk.submissions, disk.results;
      submissionsTmp, resultsTmp, history := [], [], [];
    }

    function OnDisk(): Disk
      reads this
    {
      Disk(submissions, results)
    }

    method AppendSubmission(record: JobRecord)
      modifies this
      ensures OnDisk() == Disk(old(submissions) + [record], old(results))
      ensures history == old(history) + [OnDisk()]
    {
      submissions := submissions + [record];
      history := history + [OnDisk()];
    }

    method AppendResult(record: JobRecord)
      modifies this
      ensures OnDisk() == Disk(old(submissions), old(results) + [record])
      ensures history == old(history) + [OnDisk()]
    {
      results := results + [record];
      history := history + [OnDisk()];
    }

    /** Writing a temporary file is invisible; the rename replaces the log at once. */
    method WriteSubmissions(records: seq<JobRecord>)
      modifies this
      ensures OnDisk() == Disk(records, old(results))
      ensures history == old(history) + [OnDisk()]
    {
      submissionsTmp := records;
      submissions := submissionsTmp;
      history := history + [OnDisk()];
    }

    method WriteResults(records: seq<JobRecord>)
      modifies this
      ensures OnDisk() == Disk(old(submissions), records)
      ensures history == old(history) + [OnDisk()]
    {
      resultsTmp := records;
      results := resultsTmp;
      history := history + [OnDisk()];
    }

    /** Splits a selection into unfinished and finished records, keeping the order. */
    static method Partition(records: seq<JobRecord>) returns (unfinished: seq<JobRecord>, finished: seq<JobRecord>)
      ensures unfinished == Unfinished(records) && finished == Finished(records)
    {
      unfinished, finished := [], [];
      for i := 0 to |records|
        invariant unfinished + Unfinished(records[i..]) == Unfinished(records)
        invariant finished + Finished(records[i..]) == Finished(records)
      {
        assert records[i..][1..] == records[i + 1..];
        if Terminal(records[i]) {
          finished := finished + [records[i]];
        } else {
          unfinished := unfinished + [records[i]];
        }
      }
    }

    method CompactMetadata(jobs: JobMap, limit: nat) returns (ghost recent: seq<JobRecord>)
      requires KeyedById(jobs)
      modifies this
      ensures history == old(history) + CompactStates(limit, recent, old(results))
      ensures limit == 0 ==> OnDisk() == old(OnDisk())
      ensures limit > 0 ==>
                MostRecent(jobs, limit, recent) && OnDisk() == Disk(Unfinished(recent), Finished(recent))
    {
      recent := [];
      if limit == 0 {
        return;
      }
      var records := RecentRecords(jobs, limit);
      var unfinished, finished := Partition(records);
      WriteSubmissions(unfinished);
      WriteResults(finished);
      recent := records;
    }

    /** Appends the recovered records one at a time. */
    method AppendAll(recovered: seq<JobRecord>)
      modifies this
      ensures OnDisk() == Disk(old(submissions), old(results) + recovered)
      ensures history == old(history) + AppendStates(old(OnDisk()), recovered)
    {
      ghost var states := AppendStates(old(OnDisk()), recovered);
      for i := 0 to |recovered|
        invariant OnDisk() == Disk(old(submissions), old(results) + recovered[..i])
        invariant history == old(history) + states[..i]
      {
        assert recovered[..i + 1] == recovered[..i] + [recovered[i]];
        assert old(results) + recovered[..i + 1] == old(results) + recovered[..i] + [recovered[i]];
        AppendResult(recovered[i]);
        assert states[..i + 1] == states[..i] + [states[i]];
      }
      assert recovered[..|recovered|] == recovered;
      assert states[..|recovered|] == states;
    }

    /** Reads both logs into a new table. */
    method ReadLogs() returns (table: JobTable)
      ensures fresh(table) && table.jobs == Loaded(OnDisk())
    {
      table := new JobTable();
      table.LoadRecords(submissions);
      table.LoadRecords(results);
    }

    /** The first half of the restart: read both logs, fail what is unfinished, and log that. */
    method RecoverLogs(now: Stamp) returns (table: JobTable, ghost recovered: seq<JobRecord>)
      modifies this
      ensures fresh(table) && KeyedById(table.jobs)
      ensures Recovers(old(OnDisk()), recovered, now)
      ensures OnDisk() == Disk(old(submissions), old(results) + recovered) && table.jobs == Loaded(OnDisk())
      ensures history == old(history) + AppendStates(old(OnDisk()), recovered)
    {
      ghost var disk := OnDisk();
      table := ReadLogs();
      var failed, later := table.RecoverUnfinished(now, disk);
      LoadedKeys(Disk(disk.submissions, disk.results + failed));
      AppendAll(failed);
      recovered := failed;
    }

    /**
     * The whole restart.  Every durable state it passes through is one of the crash
     * points of `run`, in order, and the table it returns is the one `run` describes.
     */
    method LoadJobs(metadataLimit: nat, jobLimit: nat, now: Stamp) returns (table: JobTable, ghost run: LoadRun)
      modifies this
      ensures fresh(table)
      ensures ValidRun(old(OnDisk()), metadataLimit, jobLimit, now, run)
      ensures history == old(history) + DurableStates(old(OnDisk()), metadataLimit, run)
      ensures OnDisk() == FinalDisk(old(OnDisk()), metadataLimit, run)
      ensures table.jobs == LoadedTable(old(OnDisk()), run)
      ensures Serves(old(OnDisk()), jobLimit, now, run, table.jobs)
    {
      ghost var disk := OnDisk();
      ghost var recovered;
      table, recovered := RecoverLogs(now);
      ghost var recent := CompactMetadata(table.jobs, metadataLimit);
      ghost var kept := table.RetainRecent(jobLimit);
      run := LoadRun(recovered, recent, kept);
      FinalDiskShape(disk, metadataLimit, run);
      LoadedTableServes(disk, metadataLimit, jobLimit, now, run);
    }
  }
}
