/**
 * The two append-only logs, what a restart reads out of them, and the durable
 * states a restart passes through while it rewrites them.
 */
module MetadataLog {
  import opened Records
  import opened Retention

  const RESTART_ERROR: string := "server restarted before job reached a terminal state"

  /** What survives a crash: `submissions.jsonl` and `results.jsonl`, one record a line. */
  datatype Disk = Disk(submissions: seq<JobRecord>, results: seq<JobRecord>)

  /** Inserting the lines of one log into a map, first to last. */
  function Replay(lines: seq<JobRecord>, jobs: JobMap): JobMap {
    if lines == [] then
      jobs
    else
      Replay(lines[..|lines| - 1], jobs)[lines[|lines| - 1].id := lines[|lines| - 1]]
  }

  lemma {:induction false} ReplayKeys(lines: seq<JobRecord>, jobs: JobMap)
    ensures Replay(lines, jobs).Keys == jobs.Keys + Ids(lines)
    ensures KeyedById(jobs) ==> KeyedById(Replay(lines, jobs))
  {
    if lines != [] {
      var n := |lines| - 1;
      ReplayKeys(lines[..n], jobs);
      IdsOfSnoc(lines);
    }
  }

  lemma IdsOfSnoc(lines: seq<JobRecord>)
    requires lines != []
    ensures Ids(lines) == Ids(lines[..|lines| - 1]) + {lines[|lines| - 1].id}
  {
    var n := |lines| - 1;
    assert lines == lines[..n] + [lines[n]];
    IdsOfConcat(lines[..n], [lines[n]]);
    assert Ids([lines[n]]) == {lines[n].id};
  }

  /** The map a restart holds before it deals with unfinished jobs. */
  function Loaded(disk: Disk): JobMap {
    Replay(disk.results, Replay(disk.submissions, map[]))
  }

  lemma LoadedKeys(disk: Disk)
    ensures Loaded(disk).Keys == Ids(disk.submissions) + Ids(disk.results)
    ensures KeyedById(Loaded(disk))
  {
    ReplayKeys(disk.submissions, map[]);
    ReplayKeys(disk.results, Replay(disk.submissions, map[]));
  }

  /** The last line that speaks about `id`. */
  predicate LastLine(lines: seq<JobRecord>, id: JobId, record: JobRecord) {
    exists i :: 0 <= i < |lines| && lines[i] == record && record.id == id &&
                forall j :: i < j < |lines| ==> lines[j].id != id
  }

  lemma {:induction false} ReplayTakesLastLine(lines: seq<JobRecord>, jobs: JobMap, id: JobId)
    ensures id in Ids(lines) ==> id in Replay(lines, jobs) && LastLine(lines, id, Replay(lines, jobs)[id])
    ensures id !in Ids(lines) && id in jobs ==> id in Replay(lines, jobs) && Replay(lines, jobs)[id] == jobs[id]
  {
    if lines != [] {
      var n := |lines| - 1;
      var front := lines[..n];
      ReplayTakesLastLine(front, jobs, id);
      IdsOfSnoc(lines);
      if lines[n].id == id {
        assert LastLine(lines, id, lines[n]);
      } else if id in Ids(lines) {
        assert id in Ids(front);
        var record := Replay(front, jobs)[id];
        var i :| 0 <= i < |front| && front[i] == record && record.id == id &&
                 forall j :: i < j < |front| ==> front[j].id != id;
        assert lines[i] == record;
      }
    }
  }

  /** A results line wins over a submissions line; within a log the last line wins. */
  lemma LoadedMeaning(disk: Disk, id: JobId)
    ensures id in Loaded(disk) <==> id in Ids(disk.results) || id in Ids(disk.submissions)
    ensures id in Ids(disk.results) ==> LastLine(disk.results, id, Loaded(disk)[id])
    ensures id !in Ids(disk.results) && id in Ids(disk.submissions) ==>
              LastLine(disk.submissions, id, Loaded(disk)[id])
  {
    LoadedKeys(disk);
    ReplayTakesLastLine(disk.submissions, map[], id);
    ReplayKeys(disk.submissions, map[]);
    ReplayTakesLastLine(disk.results, Replay(disk.submissions, map[]), id);
  }

  lemma {:induction false} ReplayConcat(a: seq<JobRecord>, b: seq<JobRecord>, jobs: JobMap)
    ensures Replay(a + b, jobs) == Replay(b, Replay(a, jobs))
  {
    if b == [] {
      assert a + b == a;
    } else {
      var n := |b| - 1;
      assert (a + b)[..|a| + n] == a + b[..n];
      ReplayConcat(a, b[..n], jobs);
    }
  }

  /** Lines with distinct ids overwrite exactly their own entries. */
  lemma {:induction false} ReplayDistinct(lines: seq<JobRecord>, jobs: JobMap)
    requires DistinctIds(lines)
    ensures Replay(lines, jobs).Keys == jobs.Keys + Ids(lines)
    ensures forall record :: record in lines ==> Replay(lines, jobs)[record.id] == record
    ensures forall id :: id in jobs && id !in Ids(lines) ==> Replay(lines, jobs)[id] == jobs[id]
  {
    if lines != [] {
      var n := |lines| - 1;
      var front := lines[..n];
      ReplayDistinct(front, jobs);
      ReplayKeys(lines, jobs);
      IdsOfSnoc(lines);
    }
  }

  // ----- what a restart makes of a log pair -----

  function RestartFailed(record: JobRecord, now: Stamp): JobRecord {
    record.(status := Failed, updatedAt := now, error := Some(RESTART_ERROR))
  }

  /**
   * What recovery may do to a record: nothing if it is terminal, and otherwise mark it
   * failed, with the restart error and a new stamp, and leave the rest alone.
   */
  predicate RecoveredFrom(after: JobRecord, before: JobRecord, since: Stamp) {
    && SameJob(after, before)
    && if Terminal(before) then after == before
       else
         && after.status.Failed? && after.error == Some(RESTART_ERROR)
         && after.result == before.result && since <= after.updatedAt
  }

  /** What a client can learn about a finished job, stamps aside. */
  datatype Outcome = Outcome(status: JobStatus, error: Option<string>, result: Option<InferenceMetadata>)

  function OutcomeOf(record: JobRecord): Outcome {
    Outcome(record.status, record.error, record.result)
  }

  /** A record that never reached a terminal state is reported as failed by the restart. */
  function Settled(record: JobRecord): Outcome {
    if Terminal(record) then OutcomeOf(record) else OutcomeOf(RestartFailed(record, 0))
  }

  /** The durable meaning of a log pair: the outcome an uninterrupted restart gives each job. */
  function Outcomes(disk: Disk): (outcomes: map<JobId, Outcome>)
    ensures outcomes.Keys == Loaded(disk).Keys
  {
    map id | id in Loaded(disk) :: Settled(Loaded(disk)[id])
  }

  /** Jobs a restart finds queued or running. */
  function Live(disk: Disk): set<JobId> {
    set id | id in Loaded(disk) && !Terminal(Loaded(disk)[id])
  }

  /** What one run of `load_jobs` chose: recovery order and stamps, and the two selections. */
  datatype LoadRun = LoadRun(
    recovered: seq<JobRecord>,
    recent: seq<JobRecord>,
    kept: set<JobId>)

  predicate Recovers(disk: Disk, recovered: seq<JobRecord>, since: Stamp) {
    && DistinctIds(recovered)
    && Ids(recovered) == Live(disk)
    && (forall record :: record in recovered ==>
          record.id in Loaded(disk) && since <= record.updatedAt &&
          record == RestartFailed(Loaded(disk)[record.id], record.updatedAt))
  }

  /** The disk after the first `k` recovered records have been appended. */
  function AfterAppends(disk: Disk, run: LoadRun, k: nat): Disk
    requires k <= |run.recovered|
  {
    Disk(disk.submissions, disk.results + run.recovered[..k])
  }

  /** The map a restart holds once every unfinished job is marked failed. */
  function Recovered(disk: Disk, run: LoadRun): JobMap {
    Loaded(Disk(disk.submissions, disk.results + run.recovered))
  }

  predicate ValidRun(disk: Disk, metadataLimit: nat, jobLimit: nat, since: Stamp, run: LoadRun) {
    && Recovers(disk, run.recovered, since)
    && (metadataLimit > 0 ==> MostRecent(Recovered(disk, run), metadataLimit, run.recent))
    && KeepsMostRecent(Recovered(disk, run), jobLimit, run.kept)
  }

  /** The disk after each of a series of results appends. */
  function AppendStates(disk: Disk, lines: seq<JobRecord>): seq<Disk> {
    seq(|lines|, k requires 0 <= k < |lines| => Disk(disk.submissions, disk.results + lines[..k + 1]))
  }

  function Unfinished(records: seq<JobRecord>): seq<JobRecord> {
    if records == [] then []
    else (if Terminal(records[0]) then [] else [records[0]]) + Unfinished(records[1..])
  }

  function Finished(records: seq<JobRecord>): seq<JobRecord> {
    if records == [] then []
    else (if Terminal(records[0]) then [records[0]] else []) + Finished(records[1..])
  }

  /**
   * Every durable state a restart passes through after its first write, in order:
   * one per recovered append, then, unless compaction is off, the submissions
   * rename and the results rename.
   */
  function DurableStates(disk: Disk, metadataLimit: nat, run: LoadRun): seq<Disk> {
    AppendStates(disk, run.recovered) + CompactStates(metadataLimit, run.recent, disk.results + run.recovered)
  }

  /** The two renames of a compaction that finds `results` in the results log. */
  function CompactStates(metadataLimit: nat, recent: seq<JobRecord>, results: seq<JobRecord>): seq<Disk> {
    if metadataLimit == 0 then []
    else [Disk(Unfinished(recent), results), Disk(Unfinished(recent), Finished(recent))]
  }

  /** The disk once `load_jobs` has returned. */
  function FinalDisk(disk: Disk, metadataLimit: nat, run: LoadRun): Disk {
    var states := DurableStates(disk, metadataLimit, run);
    if states == [] then disk else states[|states| - 1]
  }

  lemma FinalDiskShape(disk: Disk, metadataLimit: nat, run: LoadRun)
    ensures metadataLimit == 0 ==> FinalDisk(disk, metadataLimit, run) == Disk(disk.submissions, disk.results + run.recovered)
    ensures metadataLimit > 0 ==> FinalDisk(disk, metadataLimit, run) == Disk(Unfinished(run.recent), Finished(run.recent))
  {
    if run.recovered == [] {
      assert disk.results + run.recovered == disk.results;
    } else {
      assert run.recovered[..|run.recovered|] == run.recovered;
    }
  }

  /** The in-memory table `load_jobs` returns. */
  function LoadedTable(disk: Disk, run: LoadRun): JobMap {
    Restrict(Recovered(disk, run), run.kept)
  }

  // ----- appends -----

  /** Appending results lines with distinct ids overwrites exactly their own entries. */
  lemma AppendOverlays(disk: Disk, lines: seq<JobRecord>)
    requires DistinctIds(lines)
    ensures var after := Loaded(Disk(disk.submissions, disk.results + lines));
            && after.Keys == Loaded(disk).Keys + Ids(lines)
            && (forall record :: record in lines ==> record.id in after && after[record.id] == record)
            && (forall id :: id in Loaded(disk) && id !in Ids(lines) ==> id in after && after[id] == Loaded(disk)[id])
  {
    ReplayConcat(disk.results, lines, Replay(disk.submissions, map[]));
    ReplayDistinct(lines, Loaded(disk));
  }

  lemma PrefixIds(lines: seq<JobRecord>, k: nat)
    requires k <= |lines| && DistinctIds(lines)
    ensures DistinctIds(lines[..k]) && Ids(lines[..k]) <= Ids(lines)
    ensures forall record :: record in lines[..k] ==> record in lines
  {
    assert lines == lines[..k] + lines[k..];
    IdsOfConcat(lines[..k], lines[k..]);
  }

  /** Any prefix of the recovered appends leaves a log pair with the same meaning. */
  lemma AppendsKeepOutcomes(disk: Disk, run: LoadRun, since: Stamp, k: nat)
    requires Recovers(disk, run.recovered, since) && k <= |run.recovered|
    ensures Outcomes(AfterAppends(disk, run, k)) == Outcomes(disk)
  {
    var prefix := run.recovered[..k];
    PrefixIds(run.recovered, k);
    AppendOverlays(disk, prefix);
    var before, after := Loaded(disk), Loaded(AfterAppends(disk, run, k));
    assert after.Keys == before.Keys;
    forall id | id in before
      ensures Settled(after[id]) == Settled(before[id])
    {
      if id in Ids(prefix) {
        var record :| record in prefix && record.id == id;
        assert record in run.recovered && after[id] == record;
      } else {
        assert after[id] == before[id];
      }
    }
  }

  /** Once all appends are done, every job is terminal and reports its settled outcome. */
  lemma RecoveredMeaning(disk: Disk, run: LoadRun, since: Stamp)
    requires Recovers(disk, run.recovered, since)
    ensures Recovered(disk, run).Keys == Loaded(disk).Keys
    ensures KeyedById(Recovered(disk, run))
    ensures forall id :: id in Loaded(disk) ==>
              && Terminal(Recovered(disk, run)[id])
              && OutcomeOf(Recovered(disk, run)[id]) == Outcomes(disk)[id]
    ensures forall id :: id in Loaded(disk) && Terminal(Loaded(disk)[id]) ==>
              Recovered(disk, run)[id] == Loaded(disk)[id]
    ensures forall id :: id in Loaded(disk) ==> RecoveredFrom(Recovered(disk, run)[id], Loaded(disk)[id], since)
  {
    var before, after := Loaded(disk), Recovered(disk, run);
    AppendOverlays(disk, run.recovered);
    LoadedKeys(Disk(disk.submissions, disk.results + run.recovered));
    assert after.Keys == before.Keys;
    forall id | id in before
      ensures Terminal(after[id])
      ensures OutcomeOf(after[id]) == Outcomes(disk)[id]
      ensures Terminal(before[id]) ==> after[id] == before[id]
      ensures RecoveredFrom(after[id], before[id], since)
    {
      if id in Ids(run.recovered) {
        var record :| record in run.recovered && record.id == id;
        assert id in Live(disk) && after[id] == record;
      } else {
        assert id !in Live(disk) && after[id] == before[id];
      }
    }
  }

  /** The table a restart returns: a most-recent selection of the recovered records. */
  predicate Serves(disk: Disk, jobLimit: nat, since: Stamp, run: LoadRun, table: JobMap) {
    && KeepsMostRecent(Recovered(disk, run), jobLimit, table.Keys)
    && forall id :: id in table ==> id in Loaded(disk) && RecoveredFrom(table[id], Loaded(disk)[id], since)
  }

  lemma LoadedTableServes(disk: Disk, metadataLimit: nat, jobLimit: nat, since: Stamp, run: LoadRun)
    requires ValidRun(disk, metadataLimit, jobLimit, since, run)
    ensures Serves(disk, jobLimit, since, run, LoadedTable(disk, run))
  {
    RecoveredMeaning(disk, run, since);
    RestrictSize(Recovered(disk, run), run.kept);
  }

  // ----- compaction -----

  lemma {:induction false} PartitionTerminal(records: seq<JobRecord>)
    requires forall record :: record in records ==> Terminal(record)
    ensures Unfinished(records) == [] && Finished(records) == records
  {
    if records != [] {
      assert records == [records[0]] + records[1..];
      PartitionTerminal(records[1..]);
    }
  }

  /** Loading a compacted results log gives back the selection it was written from. */
  lemma ReloadSelection(jobs: JobMap, recent: seq<JobRecord>)
    requires DistinctIds(recent)
    requires forall record :: record in recent ==> record.id in jobs && jobs[record.id] == record
    ensures Loaded(Disk([], recent)) == Restrict(jobs, Ids(recent))
  {
    ReplayDistinct(recent, map[]);
    var loaded := Loaded(Disk([], recent));
    assert loaded == Replay(recent, map[]);
    forall id | id in loaded
      ensures id in jobs && loaded[id] == jobs[id]
    {
      var record :| record in recent && record.id == id;
    }
    assert loaded.Keys == Restrict(jobs, Ids(recent)).Keys;
  }

  /** The compacted pair: nothing is left in the submissions log. */
  lemma CompactionEmptiesSubmissions(disk: Disk, metadataLimit: nat, jobLimit: nat, since: Stamp, run: LoadRun)
    requires ValidRun(disk, metadataLimit, jobLimit, since, run) && metadataLimit > 0
    ensures Unfinished(run.recent) == [] && Finished(run.recent) == run.recent
    ensures Loaded(Disk([], run.recent)) == Restrict(Recovered(disk, run), Ids(run.recent))
  {
    RecoveredMeaning(disk, run, since);
    var recovered := Recovered(disk, run);
    forall record | record in run.recent
      ensures Terminal(record)
    {
      assert record.id in recovered && recovered[record.id] == record;
    }
    PartitionTerminal(run.recent);
    ReloadSelection(recovered, run.recent);
  }

  /**
   * A job whose only terminal line is in the submissions log would be lost between
   * the two renames.  The server never writes such a line.
   */
  predicate SubmissionsRedundant(disk: Disk) {
    forall id :: id in Loaded(disk) && Terminal(Loaded(disk)[id]) ==> id in Ids(disk.results)
  }

  /** The pair a crash between the two renames leaves behind. */
  function BetweenRenames(disk: Disk, run: LoadRun): Disk {
    Disk(Unfinished(run.recent), disk.results + run.recovered)
  }

  lemma BetweenRenamesKeys(disk: Disk, run: LoadRun, since: Stamp)
    requires Recovers(disk, run.recovered, since) && Unfinished(run.recent) == []
    ensures Loaded(BetweenRenames(disk, run)).Keys == Ids(disk.results) + Live(disk)
    ensures forall id :: id in Loaded(BetweenRenames(disk, run)) ==>
              id in Recovered(disk, run) && Loaded(BetweenRenames(disk, run))[id] == Recovered(disk, run)[id]
  {
    var lines := disk.results + run.recovered;
    IdsOfConcat(disk.results, run.recovered);
    LoadedKeys(BetweenRenames(disk, run));
    LoadedKeys(Disk(disk.submissions, lines));
    forall id | id in Ids(lines)
      ensures Loaded(BetweenRenames(disk, run))[id] == Recovered(disk, run)[id]
    {
      ReplayIgnoresBase(lines, map[], Replay(disk.submissions, map[]), id);
    }
  }

  lemma RedundantSurvivesRename(disk: Disk, run: LoadRun, since: Stamp)
    requires Recovers(disk, run.recovered, since) && Unfinished(run.recent) == []
    requires SubmissionsRedundant(disk)
    ensures Outcomes(BetweenRenames(disk, run)) == Outcomes(disk)
  {
    BetweenRenamesKeys(disk, run, since);
    RecoveredMeaning(disk, run, since);
    LoadedKeys(disk);
    var before, between := Loaded(disk), Loaded(BetweenRenames(disk, run));
    forall id | id in before
      ensures id in between && Settled(between[id]) == Settled(before[id])
    {
      assert Terminal(before[id]) || id in Live(disk);
      assert between[id] == Recovered(disk, run)[id];
    }
    assert between.Keys == before.Keys;
  }

  lemma RenameLosesStranded(disk: Disk, run: LoadRun, since: Stamp)
    requires Recovers(disk, run.recovered, since) && Unfinished(run.recent) == []
    requires !SubmissionsRedundant(disk)
    ensures Outcomes(BetweenRenames(disk, run)) != Outcomes(disk)
  {
    BetweenRenamesKeys(disk, run, since);
    var id :| id in Loaded(disk) && Terminal(Loaded(disk)[id]) && id !in Ids(disk.results);
    assert id !in Live(disk);
    assert id in Outcomes(disk) && id !in Outcomes(BetweenRenames(disk, run));
  }

  /** Emptying the submissions log first is safe exactly for redundant submissions logs. */
  lemma SubmissionsRenameSafeIff(disk: Disk, metadataLimit: nat, jobLimit: nat, since: Stamp, run: LoadRun)
    requires ValidRun(disk, metadataLimit, jobLimit, since, run) && metadataLimit > 0
    ensures Outcomes(BetweenRenames(disk, run)) == Outcomes(disk) <==> SubmissionsRedundant(disk)
  {
    CompactionEmptiesSubmissions(disk, metadataLimit, jobLimit, since, run);
    if SubmissionsRedundant(disk) {
      RedundantSurvivesRename(disk, run, since);
    } else {
      RenameLosesStranded(disk, run, since);
    }
  }

  /** What a log says about an id it mentions does not depend on what was loaded before. */
  lemma {:induction false} ReplayIgnoresBase(lines: seq<JobRecord>, a: JobMap, b: JobMap, id: JobId)
    requires id in Ids(lines)
    ensures id in Replay(lines, a) && id in Replay(lines, b)
    ensures Replay(lines, a)[id] == Replay(lines, b)[id]
  {
    IdsOfSnoc(lines);
    if lines[|lines| - 1].id != id {
      ReplayIgnoresBase(lines[..|lines| - 1], a, b, id);
    }
  }

  /** The two halves of a selection: every record in exactly one of them. */
  lemma {:induction false} PartitionMeaning(records: seq<JobRecord>)
    ensures multiset(records) == multiset(Unfinished(records)) + multiset(Finished(records))
    ensures forall record :: record in Unfinished(records) ==> !Terminal(record)
    ensures forall record :: record in Finished(records) ==> Terminal(record)
  {
    if records != [] {
      assert records == [records[0]] + records[1..];
      PartitionMeaning(records[1..]);
    }
  }

  lemma AscendingCons(record: JobRecord, rest: seq<JobRecord>)
    requires Ascending(rest) && forall other :: other in rest ==> record.updatedAt <= other.updatedAt
    ensures Ascending([record] + rest)
  {
  }

  /** ... and both halves keep the order. */
  lemma {:induction false} PartitionAscending(records: seq<JobRecord>)
    requires Ascending(records)
    ensures Ascending(Unfinished(records)) && Ascending(Finished(records))
  {
    if records != [] {
      var first, rest := records[0], records[1..];
      assert forall i :: 0 <= i < |rest| ==> rest[i] == records[i + 1];
      PartitionAscending(rest);
      PartitionMeaning(rest);
      assert forall other :: other in rest ==> other in multiset(rest) && first.updatedAt <= other.updatedAt;
      HalvesWithin(rest);
      if Terminal(first) {
        AscendingCons(first, Finished(rest));
      } else {
        AscendingCons(first, Unfinished(rest));
      }
    }
  }

  lemma HalvesWithin(records: seq<JobRecord>)
    ensures forall record :: record in Unfinished(records) || record in Finished(records) ==> record in records
  {
    PartitionMeaning(records);
    forall record | record in Unfinished(records) || record in Finished(records)
      ensures record in records
    {
      assert record in multiset(records);
    }
  }
}
