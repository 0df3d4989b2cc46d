/**
 * Restarts that crash part-way: whatever prefix of its writes a restart manages,
 * the next one reports the same outcomes.
 */
module CrashRecovery {
  import opened Records
  import opened Retention
  import opened MetadataLog

  /** The disk after the first `writes` durable writes of a restart. */
  function StateAfter(disk: Disk, metadataLimit: nat, run: LoadRun, writes: nat): Disk
    requires writes <= |DurableStates(disk, metadataLimit, run)|
  {
    if writes == 0 then disk else DurableStates(disk, metadataLimit, run)[writes - 1]
  }

  /** The last write of a restart with compaction on is the results rename. */
  predicate Compacted(disk: Disk, metadataLimit: nat, run: LoadRun, writes: nat) {
    metadataLimit > 0 && writes == |run.recovered| + 2
  }

  lemma StateAfterCases(disk: Disk, metadataLimit: nat, run: LoadRun, writes: nat)
    requires writes <= |DurableStates(disk, metadataLimit, run)|
    ensures writes <= |run.recovered| ==>
              StateAfter(disk, metadataLimit, run, writes) == AfterAppends(disk, run, writes)
    ensures writes > |run.recovered| ==> metadataLimit > 0
    ensures writes == |run.recovered| + 1 ==>
              StateAfter(disk, metadataLimit, run, writes) == BetweenRenames(disk, run)
    ensures writes > |run.recovered| + 1 ==>
              && Compacted(disk, metadataLimit, run, writes)
              && StateAfter(disk, metadataLimit, run, writes) == Disk(Unfinished(run.recent), Finished(run.recent))
  {
    if writes == 0 {
      assert disk.results + run.recovered[..0] == disk.results;
    }
  }

  lemma AppendsKeepRedundancy(disk: Disk, run: LoadRun, since: Stamp, k: nat)
    requires Recovers(disk, run.recovered, since) && SubmissionsRedundant(disk) && k <= |run.recovered|
    ensures SubmissionsRedundant(AfterAppends(disk, run, k))
  {
    var prefix := run.recovered[..k];
    PrefixIds(run.recovered, k);
    AppendOverlays(disk, prefix);
    IdsOfConcat(disk.results, prefix);
  }

  lemma EmptySubmissionsRedundant(results: seq<JobRecord>)
    ensures SubmissionsRedundant(Disk([], results))
  {
    LoadedKeys(Disk([], results));
  }

  /**
   * Crash safety of one restart.  Short of the final rename the durable meaning is
   * unchanged; the final rename cuts it down to the most recent records.
   */
  lemma InterruptedLoad(disk: Disk, metadataLimit: nat, jobLimit: nat, since: Stamp, run: LoadRun, writes: nat)
    requires ValidRun(disk, metadataLimit, jobLimit, since, run) && SubmissionsRedundant(disk)
    requires writes <= |DurableStates(disk, metadataLimit, run)|
    ensures SubmissionsRedundant(StateAfter(disk, metadataLimit, run, writes))
    ensures !Compacted(disk, metadataLimit, run, writes) ==>
              Outcomes(StateAfter(disk, metadataLimit, run, writes)) == Outcomes(disk)
    ensures Compacted(disk, metadataLimit, run, writes) ==>
              Outcomes(StateAfter(disk, metadataLimit, run, writes))
              == (map id | id in Outcomes(disk) && id in Ids(run.recent) :: Outcomes(disk)[id])
  {
    StateAfterCases(disk, metadataLimit, run, writes);
    if writes <= |run.recovered| {
      AppendsKeepOutcomes(disk, run, since, writes);
      AppendsKeepRedundancy(disk, run, since, writes);
    } else {
      CompactionEmptiesSubmissions(disk, metadataLimit, jobLimit, since, run);
      if writes == |run.recovered| + 1 {
        RedundantSurvivesRename(disk, run, since);
        EmptySubmissionsRedundant(disk.results + run.recovered);
      } else {
        EmptySubmissionsRedundant(run.recent);
        CompactedOutcomes(disk, run, since);
      }
    }
  }

  lemma CompactedOutcomes(disk: Disk, run: LoadRun, since: Stamp)
    requires Recovers(disk, run.recovered, since)
    requires Loaded(Disk([], run.recent)) == Restrict(Recovered(disk, run), Ids(run.recent))
    ensures Outcomes(Disk([], run.recent))
            == map id | id in Outcomes(disk) && id in Ids(run.recent) :: Outcomes(disk)[id]
  {
    RecoveredMeaning(disk, run, since);
    var compacted := Loaded(Disk([], run.recent));
    forall id | id in compacted
      ensures id in Outcomes(disk) && Settled(compacted[id]) == Outcomes(disk)[id]
    {
      assert compacted[id] == Recovered(disk, run)[id];
    }
    assert compacted.Keys == (set id | id in Outcomes(disk) && id in Ids(run.recent));
  }

  /** A job vanishes only in the final rename, and only behind `metadataLimit` records no older than it. */
  lemma VanishOnlyByTruncation(
    disk: Disk, metadataLimit: nat, jobLimit: nat, since: Stamp, run: LoadRun, writes: nat, id: JobId)
    requires ValidRun(disk, metadataLimit, jobLimit, since, run) && SubmissionsRedundant(disk)
    requires writes <= |DurableStates(disk, metadataLimit, run)|
    requires id in Outcomes(disk) && id !in Outcomes(StateAfter(disk, metadataLimit, run, writes))
    ensures Compacted(disk, metadataLimit, run, writes) && id !in Ids(run.recent)
    ensures id in Recovered(disk, run) && |run.recent| == metadataLimit < |Recovered(disk, run)|
    ensures forall record :: record in run.recent ==>
              Recovered(disk, run)[id].updatedAt <= record.updatedAt
  {
    InterruptedLoad(disk, metadataLimit, jobLimit, since, run, writes);
    RecoveredMeaning(disk, run, since);
    var jobs := Recovered(disk, run);
    RecentListKeeps(jobs, metadataLimit, run.recent);
    EvictionNeedsNewerRecords(jobs, metadataLimit, Ids(run.recent), id);
    DistinctIdsCount(run.recent);
    forall record | record in run.recent
      ensures jobs[id].updatedAt <= record.updatedAt
    {
      assert record.id in Ids(run.recent);
    }
  }

  // ----- any number of interrupted restarts -----

  /** One restart that got through its first `writes` durable writes. */
  datatype Attempt = Attempt(metadataLimit: nat, jobLimit: nat, since: Stamp, run: LoadRun, writes: nat)

  predicate ValidAttempt(disk: Disk, attempt: Attempt) {
    && ValidRun(disk, attempt.metadataLimit, attempt.jobLimit, attempt.since, attempt.run)
    && attempt.writes <= |DurableStates(disk, attempt.metadataLimit, attempt.run)|
  }

  predicate ValidAttempts(disk: Disk, attempts: seq<Attempt>)
    decreases |attempts|
  {
    attempts != [] ==>
      && ValidAttempt(disk, attempts[0])
      && ValidAttempts(StateAfter(disk, attempts[0].metadataLimit, attempts[0].run, attempts[0].writes), attempts[1..])
  }

  /** The disk after a series of restarts, each cut off where it was. */
  function AfterAttempts(disk: Disk, attempts: seq<Attempt>): Disk
    requires ValidAttempts(disk, attempts)
    decreases |attempts|
  {
    if attempts == [] then
      disk
    else
      AfterAttempts(
        StateAfter(disk, attempts[0].metadataLimit, attempts[0].run, attempts[0].writes), attempts[1..])
  }

  predicate SubMap(small: map<JobId, Outcome>, large: map<JobId, Outcome>) {
    forall id :: id in small ==> id in large && small[id] == large[id]
  }

  predicate RoomFor(size: nat, attempts: seq<Attempt>) {
    forall attempt :: attempt in attempts ==> attempt.metadataLimit == 0 || size <= attempt.metadataLimit
  }

  lemma NothingVanishesWithRoom(disk: Disk, attempt: Attempt, id: JobId)
    requires ValidAttempt(disk, attempt) && SubmissionsRedundant(disk)
    requires attempt.metadataLimit == 0 || |Outcomes(disk)| <= attempt.metadataLimit
    requires id in Outcomes(disk)
    ensures id in Outcomes(StateAfter(disk, attempt.metadataLimit, attempt.run, attempt.writes))
  {
    var Attempt(metadataLimit, jobLimit, since, run, writes) := attempt;
    RecoveredMeaning(disk, run, since);
    assert Outcomes(disk).Keys == Recovered(disk, run).Keys;
    assert |Outcomes(disk)| == |Outcomes(disk).Keys| == |Recovered(disk, run)|;
    if id !in Outcomes(StateAfter(disk, metadataLimit, run, writes)) {
      VanishOnlyByTruncation(disk, metadataLimit, jobLimit, since, run, writes, id);
    }
  }

  /** One crash, wherever it falls: no outcome changes, and nothing is lost if the records fit. */
  lemma AttemptKeepsOutcomes(disk: Disk, attempt: Attempt)
    requires ValidAttempt(disk, attempt) && SubmissionsRedundant(disk)
    ensures var after := StateAfter(disk, attempt.metadataLimit, attempt.run, attempt.writes);
            && SubmissionsRedundant(after)
            && SubMap(Outcomes(after), Outcomes(disk))
            && (RoomFor(|Outcomes(disk)|, [attempt]) ==> Outcomes(after) == Outcomes(disk))
  {
    var Attempt(metadataLimit, jobLimit, since, run, writes) := attempt;
    var after := StateAfter(disk, metadataLimit, run, writes);
    InterruptedLoad(disk, metadataLimit, jobLimit, since, run, writes);
    if RoomFor(|Outcomes(disk)|, [attempt]) {
      assert attempt in [attempt];
      forall id | id in Outcomes(disk)
        ensures id in Outcomes(after)
      {
        NothingVanishesWithRoom(disk, attempt, id);
      }
      SubMapEqual(Outcomes(after), Outcomes(disk));
    }
  }

  lemma SubMapEqual(small: map<JobId, Outcome>, large: map<JobId, Outcome>)
    requires SubMap(small, large) && large.Keys <= small.Keys
    ensures small == large
  {
    assert small.Keys == large.Keys;
  }

  /** Any number of crashing restarts in a row, even under changing limits. */
  lemma {:induction false} AttemptsKeepOutcomes(disk: Disk, attempts: seq<Attempt>)
    requires ValidAttempts(disk, attempts) && SubmissionsRedundant(disk)
    ensures SubmissionsRedundant(AfterAttempts(disk, attempts))
    ensures SubMap(Outcomes(AfterAttempts(disk, attempts)), Outcomes(disk))
    ensures RoomFor(|Outcomes(disk)|, attempts) ==> Outcomes(AfterAttempts(disk, attempts)) == Outcomes(disk)
    decreases |attempts|
  {
    if attempts != [] {
      var first := attempts[0];
      AttemptKeepsOutcomes(disk, first);
      AttemptsKeepOutcomes(StateAfter(disk, first.metadataLimit, first.run, first.writes), attempts[1..]);
    }
  }

  /** A restart that completes reports the durable meaning of the disk it started from. */
  lemma CompleteLoadReports(disk: Disk, metadataLimit: nat, jobLimit: nat, since: Stamp, run: LoadRun, id: JobId)
    requires ValidRun(disk, metadataLimit, jobLimit, since, run)
    requires id in LoadedTable(disk, run)
    ensures id in Outcomes(disk) && OutcomeOf(LoadedTable(disk, run)[id]) == Outcomes(disk)[id]
    ensures Terminal(LoadedTable(disk, run)[id])
  {
    RecoveredMeaning(disk, run, since);
  }

  /** Every job in `table` is finished and reports the outcome `outcomes` has for it. */
  predicate Reports(table: JobMap, outcomes: map<JobId, Outcome>) {
    forall id :: id in table ==> Terminal(table[id]) && id in outcomes && OutcomeOf(table[id]) == outcomes[id]
  }

  lemma CompleteLoadReportsAll(disk: Disk, attempt: Attempt)
    requires ValidAttempt(disk, attempt)
    ensures Reports(LoadedTable(disk, attempt.run), Outcomes(disk))
  {
    forall id | id in LoadedTable(disk, attempt.run)
      ensures id in Outcomes(disk) && OutcomeOf(LoadedTable(disk, attempt.run)[id]) == Outcomes(disk)[id]
      ensures Terminal(LoadedTable(disk, attempt.run)[id])
    {
      CompleteLoadReports(disk, attempt.metadataLimit, attempt.jobLimit, attempt.since, attempt.run, id);
    }
  }

  lemma ReportsWeaken(table: JobMap, small: map<JobId, Outcome>, large: map<JobId, Outcome>)
    requires Reports(table, small) && SubMap(small, large)
    ensures Reports(table, large)
  {
  }

  /**
   * Crash-safe recovery: however often restarts crash before one completes, every
   * job the surviving restart still knows has the status, error and result that an
   * uninterrupted restart of the original disk would have given it.
   */
  lemma CrashSafeRecovery(disk: Disk, attempts: seq<Attempt>, last: Attempt, direct: Attempt)
    requires SubmissionsRedundant(disk)
    requires ValidAttempts(disk, attempts) && ValidAttempt(AfterAttempts(disk, attempts), last)
    requires ValidAttempt(disk, direct)
    ensures Reports(LoadedTable(AfterAttempts(disk, attempts), last.run), Outcomes(disk))
    ensures Reports(LoadedTable(disk, direct.run), Outcomes(disk))
  {
    AttemptsKeepOutcomes(disk, attempts);
    var after := AfterAttempts(disk, attempts);
    CompleteLoadReportsAll(after, last);
    ReportsWeaken(LoadedTable(after, last.run), Outcomes(after), Outcomes(disk));
    CompleteLoadReportsAll(disk, direct);
  }

  // ----- loading twice -----

  lemma UncompactedLoads(disk: Disk, jobLimit: nat, since: Stamp, run: LoadRun)
    requires ValidRun(disk, 0, jobLimit, since, run)
    ensures Live(FinalDisk(disk, 0, run)) == {} && Loaded(FinalDisk(disk, 0, run)) == Recovered(disk, run)
  {
    RecoveredMeaning(disk, run, since);
    FinalDiskShape(disk, 0, run);
  }

  lemma CompactedLoads(disk: Disk, metadataLimit: nat, jobLimit: nat, since: Stamp, run: LoadRun)
    requires ValidRun(disk, metadataLimit, jobLimit, since, run) && metadataLimit > 0
    ensures Live(FinalDisk(disk, metadataLimit, run)) == {}
    ensures Loaded(FinalDisk(disk, metadataLimit, run)) == Restrict(Recovered(disk, run), Ids(run.recent))
    ensures KeepsMostRecent(Recovered(disk, run), metadataLimit, Ids(run.recent))
  {
    RecoveredMeaning(disk, run, since);
    FinalDiskShape(disk, metadataLimit, run);
    CompactionEmptiesSubmissions(disk, metadataLimit, jobLimit, since, run);
    RecentListKeeps(Recovered(disk, run), metadataLimit, run.recent);
  }

  lemma FinalDiskLoads(disk: Disk, metadataLimit: nat, jobLimit: nat, since: Stamp, run: LoadRun)
    requires ValidRun(disk, metadataLimit, jobLimit, since, run)
    ensures Live(FinalDisk(disk, metadataLimit, run)) == {}
    ensures metadataLimit == 0 ==> Loaded(FinalDisk(disk, metadataLimit, run)) == Recovered(disk, run)
    ensures metadataLimit > 0 ==>
              && Loaded(FinalDisk(disk, metadataLimit, run)) == Restrict(Recovered(disk, run), Ids(run.recent))
              && KeepsMostRecent(Recovered(disk, run), metadataLimit, Ids(run.recent))
  {
    if metadataLimit == 0 {
      UncompactedLoads(disk, jobLimit, since, run);
    } else {
      CompactedLoads(disk, metadataLimit, jobLimit, since, run);
    }
  }

  /** The second restart finds nothing unfinished, so it recovers nothing. */
  lemma SecondLoadRecoversNothing(disk: Disk, run: LoadRun, since: Stamp)
    requires Live(disk) == {} && Recovers(disk, run.recovered, since)
    ensures Recovered(disk, run) == Loaded(disk)
  {
    DistinctIdsCount(run.recovered);
    assert disk.results + run.recovered == disk.results;
  }

  lemma KeptSize(jobs: JobMap, limit: nat, kept: set<JobId>)
    requires KeepsMostRecent(jobs, limit, kept)
    ensures |Restrict(jobs, kept)| == Min(limit, |jobs|)
  {
    RestrictSize(jobs, kept);
  }

  /**
   * Restarting twice under the same limits returns the same table exactly when the
   * compacted log can hold everything the table can: compaction is off, or it keeps
   * at least as many records as the table, or there were no more records to begin with.
   */
  lemma SecondLoadSameIff(
    disk: Disk, metadataLimit: nat, jobLimit: nat, since: Stamp, first: LoadRun, second: LoadRun)
    requires ValidRun(disk, metadataLimit, jobLimit, since, first)
    requires ValidRun(FinalDisk(disk, metadataLimit, first), metadataLimit, jobLimit, since, second)
    requires DistinctStamps(Recovered(disk, first))
    ensures LoadedTable(FinalDisk(disk, metadataLimit, first), second) == LoadedTable(disk, first)
            <==> metadataLimit == 0 || jobLimit <= metadataLimit || |Recovered(disk, first)| <= metadataLimit
  {
    var jobs := Recovered(disk, first);
    var final := FinalDisk(disk, metadataLimit, first);
    FinalDiskLoads(disk, metadataLimit, jobLimit, since, first);
    SecondLoadRecoversNothing(final, second, since);
    var reloaded := Loaded(final);
    assert KeepsMostRecent(reloaded, jobLimit, second.kept);
    if metadataLimit == 0 {
      SelectionUnique(jobs, jobLimit, first.kept, second.kept);
    } else if jobLimit <= metadataLimit {
      SelectionNests(jobs, metadataLimit, jobLimit, Ids(first.recent), second.kept);
      SelectionUnique(jobs, jobLimit, first.kept, second.kept);
    } else if |jobs| <= metadataLimit {
      NothingDropped(jobs, metadataLimit, Ids(first.recent));
      SelectionUnique(jobs, jobLimit, first.kept, second.kept);
    } else {
      KeptSize(jobs, metadataLimit, Ids(first.recent));
      KeptSize(reloaded, jobLimit, second.kept);
      KeptSize(jobs, jobLimit, first.kept);
    }
  }

  /** Whatever the stamps: the second table is as large as the first under the same condition, else smaller. */
  lemma SecondLoadSizeIff(
    disk: Disk, metadataLimit: nat, jobLimit: nat, since: Stamp, first: LoadRun, second: LoadRun)
    requires ValidRun(disk, metadataLimit, jobLimit, since, first)
    requires ValidRun(FinalDisk(disk, metadataLimit, first), metadataLimit, jobLimit, since, second)
    ensures |LoadedTable(FinalDisk(disk, metadataLimit, first), second)| <= |LoadedTable(disk, first)|
    ensures |LoadedTable(FinalDisk(disk, metadataLimit, first), second)| == |LoadedTable(disk, first)|
            <==> metadataLimit == 0 || jobLimit <= metadataLimit || |Recovered(disk, first)| <= metadataLimit
  {
    var jobs := Recovered(disk, first);
    var final := FinalDisk(disk, metadataLimit, first);
    FinalDiskLoads(disk, metadataLimit, jobLimit, since, first);
    SecondLoadRecoversNothing(final, second, since);
    KeptSize(Loaded(final), jobLimit, second.kept);
    KeptSize(jobs, jobLimit, first.kept);
    if metadataLimit > 0 {
      KeptSize(jobs, metadataLimit, Ids(first.recent));
    }
  }
}
