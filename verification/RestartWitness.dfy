/** Logs the server can really leave behind, from which a second restart returns a smaller table. */
module RestartWitness {
  import opened Records
  import opened MetadataLog
  import opened Retention
  import opened EvictionWitness
  import opened Protocol
  import opened ProtocolTheorems

  const FIRST := RestartFailed(Fresh(OLD), 0)
  const SECOND := RestartFailed(Fresh(LATE), 1)

  // Two submissions, and what a restart without compaction made of them.
  const SUBMITTED := Disk([Fresh(OLD), Fresh(LATE)], [])
  const FAILED := Disk([Fresh(OLD), Fresh(LATE)], [FIRST, SECOND])

  lemma LoadedSubmitted()
    ensures Loaded(SUBMITTED) == map[OLD := Fresh(OLD), LATE := Fresh(LATE)]
    ensures Live(SUBMITTED) == {OLD, LATE}
  {
    assert SUBMITTED.submissions[..1] == [Fresh(OLD)] && [Fresh(OLD)][..0] == [];
    assert Replay([Fresh(OLD)], map[]) == map[OLD := Fresh(OLD)];
  }

  lemma LoadedFailed()
    ensures Loaded(FAILED) == map[OLD := FIRST, LATE := SECOND] && Live(FAILED) == {}
  {
    LoadedSubmitted();
    var base := Loaded(SUBMITTED);
    assert FAILED.results[..1] == [FIRST] && [FIRST][..0] == [];
    assert Replay([FIRST], base) == base[OLD := FIRST];
  }

  lemma LoadedCompacted()
    ensures Loaded(Disk([], [SECOND])) == map[LATE := SECOND] && Live(Disk([], [SECOND])) == {}
  {
    assert [SECOND][..0] == [];
  }

  /** A crash with two logged submissions. */
  lemma ReachSubmitted() returns (w: World)
    ensures Reachable(w) && w.disk == SUBMITTED && w.clock == 0 && w.server.None?
  {
    w := Boots();
    w := Inserts(w, map[], map[], Idle(FIVE), OLD);
    w := Logs(w, map[][OLD := Fresh(OLD)], map[][OLD := Inserted], Idle(FIVE), OLD);
    var jobs, tickets := map[][OLD := Fresh(OLD)], map[][OLD := Inserted][OLD := Appended];
    w := Inserts(w, jobs, tickets, Idle(FIVE), LATE);
    w := Logs(w, jobs[LATE := Fresh(LATE)], tickets[LATE := Inserted], Idle(FIVE), LATE);
    Extend(w, Crash);
    w := Apply(w, Crash);
  }

  const RECOVERY := LoadRun([FIRST, SECOND], [], {LATE})

  lemma RecoversBoth()
    ensures Recovers(SUBMITTED, RECOVERY.recovered, 0)
  {
    LoadedSubmitted();
    assert Ids(RECOVERY.recovered) == {OLD, LATE} by {
      assert FIRST in RECOVERY.recovered && SECOND in RECOVERY.recovered;
    }
  }

  lemma KeepsLate()
    ensures Recovered(SUBMITTED, RECOVERY) == Loaded(FAILED)
    ensures KeepsMostRecent(Recovered(SUBMITTED, RECOVERY), 1, RECOVERY.kept)
  {
    LoadedFailed();
    assert SUBMITTED.results + RECOVERY.recovered == FAILED.results;
    assert |Loaded(FAILED)| == 2;
  }

  lemma RecoveryValid()
    ensures ValidRun(SUBMITTED, 0, 1, 0, RECOVERY) && FinalDisk(SUBMITTED, 0, RECOVERY) == FAILED
  {
    RecoversBoth();
    KeepsLate();
    FinalDiskShape(SUBMITTED, 0, RECOVERY);
    assert SUBMITTED.results + RECOVERY.recovered == FAILED.results;
  }

  lemma ReachFailed() returns (w: World)
    ensures Reachable(w) && w.disk == FAILED && w.clock == 0 && w.server.None?
  {
    w := ReachSubmitted();
    RecoveryValid();
    Extend(w, Restart(CONFIG, RECOVERY));
    w := Apply(w, Restart(CONFIG, RECOVERY));
    Extend(w, Crash);
    w := Apply(w, Crash);
  }

  const TWICE_FIRST := LoadRun([], [SECOND], {OLD, LATE})
  const TWICE_SECOND := LoadRun([], [SECOND], {LATE})

  lemma FirstValid()
    ensures ValidRun(FAILED, 1, 2, 0, TWICE_FIRST) && FinalDisk(FAILED, 1, TWICE_FIRST) == Disk([], [SECOND])
    ensures LoadedTable(FAILED, TWICE_FIRST) == map[OLD := FIRST, LATE := SECOND]
  {
    LoadedFailed();
    assert FAILED.results + [] == FAILED.results;
    assert Recovered(FAILED, TWICE_FIRST) == Loaded(FAILED);
    assert |Loaded(FAILED)| == 2;
    assert SECOND in TWICE_FIRST.recent;
    FinalDiskShape(FAILED, 1, TWICE_FIRST);
    assert [SECOND][1..] == [];
  }

  lemma SecondValid()
    ensures ValidRun(Disk([], [SECOND]), 1, 2, 0, TWICE_SECOND)
    ensures LoadedTable(Disk([], [SECOND]), TWICE_SECOND) == map[LATE := SECOND]
  {
    LoadedCompacted();
    assert [SECOND] + [] == [SECOND];
    assert Recovered(Disk([], [SECOND]), TWICE_SECOND) == Loaded(Disk([], [SECOND]));
    assert |Loaded(Disk([], [SECOND]))| == 1;
    assert SECOND in TWICE_SECOND.recent;
  }

  /**
   * From logs of a real run, with room for two jobs in the table and one in the logs,
   * the second restart forgets a job that the first one reported.
   */
  lemma SecondRestartSmaller() returns (w: World)
    ensures Reachable(w) && w.server.None? && w.clock == 0
    ensures ValidRun(w.disk, 1, 2, 0, TWICE_FIRST)
    ensures ValidRun(FinalDisk(w.disk, 1, TWICE_FIRST), 1, 2, 0, TWICE_SECOND)
    ensures OLD in LoadedTable(w.disk, TWICE_FIRST)
    ensures OLD !in LoadedTable(FinalDisk(w.disk, 1, TWICE_FIRST), TWICE_SECOND)
  {
    w := ReachFailed();
    FirstValid();
    SecondValid();
  }
}
