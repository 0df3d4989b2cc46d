/** The process-wide counters: worker readiness and job metrics. */
module ServerState {
  import opened Protocol

  class WorkerPoolState {
    const expected: nat
    var ready: nat
    var failed: nat

    constructor (expected: nat)
      ensures this.expected == expected && ready == 0 && failed == 0
    {
      this.expected := expected;
      ready, failed := 0, 0;
    }

    method MarkReady()
      modifies this
      ensures ready == old(ready) + 1 && failed == old(failed)
    {
      ready := ready + 1;
    }

    method MarkFailed()
      modifies this
      ensures failed == old(failed) + 1 && ready == old(ready)
    {
      failed := failed + 1;
    }

    /** A subtraction that would go below zero is not stored. */
    method MarkStopped()
      modifies this
      ensures failed == old(failed)
      ensures ready == if old(ready) > 0 then old(ready) - 1 else 0
    {
      if ready >= 1 {
        ready := ready - 1;
      }
    }

    method IsReady() returns (yes: bool)
      ensures yes <==> ready > 0
    {
      yes := ready > 0;
    }
  }

  /** A series of counter updates, each its own atomic step. */
  function BumpAll(m: Metrics, todo: seq<Counter>): Metrics
    decreases |todo|
  {
    if todo == [] then m else BumpAll(Bump(m, todo[0]), todo[1..])
  }

  class AppMetrics {
    var jobsStarted: nat
    var jobsSucceeded: nat
    var jobsFailed: nat
    var jobsTimedOut: nat
    var workerRestarts: nat

    constructor ()
      ensures Snapshot() == Metrics(0, 0, 0, 0, 0)
    {
      jobsStarted, jobsSucceeded, jobsFailed, jobsTimedOut, workerRestarts := 0, 0, 0, 0, 0;
    }

    function Snapshot(): Metrics
      reads this
    {
      Metrics(jobsStarted, jobsSucceeded, jobsFailed, jobsTimedOut, workerRestarts)
    }

    method RecordJobStarted()
      modifies this
      ensures Snapshot() == old(Snapshot()).(jobsStarted := old(jobsStarted) + 1)
    {
      jobsStarted := jobsStarted + 1;
    }

    method RecordJobSucceeded()
      modifies this
      ensures Snapshot() == Bump(old(Snapshot()), CountSucceeded)
    {
      jobsSucceeded := jobsSucceeded + 1;
    }

    method RecordJobFailed()
      modifies this
      ensures Snapshot() == Bump(old(Snapshot()), CountFailed)
    {
      jobsFailed := jobsFailed + 1;
    }

    /** A timeout is counted twice: as a timeout, and then as a failure. */
    method RecordJobTimedOut()
      modifies this
      ensures Snapshot() == BumpAll(old(Snapshot()), [CountTimedOut, CountFailed])
    {
      jobsTimedOut := jobsTimedOut + 1;
      RecordJobFailed();
      TwoBumps(old(Snapshot()), CountTimedOut, CountFailed);
    }

    method RecordWorkerRestart()
      modifies this
      ensures Snapshot() == Bump(old(Snapshot()), CountRestarts)
    {
      workerRestarts := workerRestarts + 1;
    }

    /** The recording half of `handle_inference_result`: the counters every way of ending owes. */
    method RecordEnding(ending: Ending)
      modifies this
      ensures Snapshot() == BumpAll(old(Snapshot()), Owing(ending))
    {
      ghost var before := Snapshot();
      match ending {
        case Returned(Success(_)) =>
          RecordJobSucceeded();
          OneBump(before, CountSucceeded);
        case Returned(Failure(_)) =>
          RecordJobFailed();
          OneBump(before, CountFailed);
        case TimedOut =>
          RecordJobTimedOut();
          RecordWorkerRestart();
          BumpAllConcat(before, [CountTimedOut, CountFailed], [CountRestarts]);
          OneBump(BumpAll(before, [CountTimedOut, CountFailed]), CountRestarts);
        case JoinFailed(_) =>
          RecordJobFailed();
          RecordWorkerRestart();
          TwoBumps(before, CountFailed, CountRestarts);
      }
    }
  }

  lemma OneBump(m: Metrics, a: Counter)
    ensures BumpAll(m, [a]) == Bump(m, a)
  {
    assert [a][1..] == [];
  }

  lemma TwoBumps(m: Metrics, a: Counter, b: Counter)
    ensures BumpAll(m, [a, b]) == Bump(Bump(m, a), b)
  {
    assert [a, b][1..] == [b];
    OneBump(Bump(m, a), b);
  }

  lemma {:induction false} BumpAllConcat(m: Metrics, a: seq<Counter>, b: seq<Counter>)
    ensures BumpAll(m, a + b) == BumpAll(BumpAll(m, a), b)
    decreases |a|
  {
    if a == [] {
      assert a + b == b;
    } else {
      assert (a + b)[1..] == a[1..] + b;
      BumpAllConcat(Bump(m, a[0]), a[1..], b);
    }
  }

  /**
   * However a job ends, recording it adds one success or one failure, a timeout and a
   * failed join each add one restart, and only a timeout adds to the timeouts.
   */
  lemma EndingIsCountedOnce(m: Metrics, ending: Ending)
    ensures var after := BumpAll(m, Owing(ending));
            && after.jobsStarted == m.jobsStarted
            && after.jobsSucceeded + after.jobsFailed == m.jobsSucceeded + m.jobsFailed + 1
            && after.jobsTimedOut == m.jobsTimedOut + (if ending.TimedOut? then 1 else 0)
            && after.workerRestarts == m.workerRestarts + (if Restarts(ending) then 1 else 0)
            && (after.jobsSucceeded > m.jobsSucceeded <==> ending.Returned? && ending.verdict.Success?)
  {
    match ending {
      case Returned(Success(_)) =>
        OneBump(m, CountSucceeded);
      case Returned(Failure(_)) =>
        OneBump(m, CountFailed);
      case TimedOut =>
        assert [CountTimedOut, CountFailed, CountRestarts] == [CountTimedOut, CountFailed] + [CountRestarts];
        BumpAllConcat(m, [CountTimedOut, CountFailed], [CountRestarts]);
        TwoBumps(m, CountTimedOut, CountFailed);
        OneBump(BumpAll(m, [CountTimedOut, CountFailed]), CountRestarts);
      case JoinFailed(_) =>
        TwoBumps(m, CountFailed, CountRestarts);
    }
  }
}
