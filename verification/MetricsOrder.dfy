/** When `jobs_timed_out` can be read above `jobs_failed`: exactly. */
module MetricsOrder {
  import opened Records
  import opened Protocol
  import opened PoolAccounting
  import opened PoolInvariants
  import opened ProtocolTheorems

  /** What is left to record is a tail of what the ending owed. */
  predicate TailOf(todo: seq<Counter>, ending: Ending) {
    |todo| <= |Owing(ending)| && todo == Owing(ending)[|Owing(ending)| - |todo|..]
  }

  predicate TailOK(worker: Worker) {
    worker.Recording? ==> TailOf(worker.todo, worker.ending)
  }

  /** The timeout is counted and its failure is not. */
  predicate BetweenBumps(worker: Worker) {
    worker.Recording? && worker.ending.TimedOut? && CountFailed in worker.todo && CountTimedOut !in worker.todo
  }

  /** A failure that is not a timeout, still to be counted. */
  predicate OtherFailureDue(worker: Worker) {
    worker.Recording? && !worker.ending.TimedOut? && CountFailed in worker.todo
  }

  /** Jobs that failed otherwise than by a timeout. */
  function OtherFailures(s: Server): nat {
    s.tally.errored + s.tally.joinFailed
  }

  predicate OrderOK(s: Server) {
    && (forall i :: 0 <= i < |s.workers| ==> TailOK(s.workers[i]))
    && CountWorkers(s.workers, OtherFailureDue) <= OtherFailures(s)
  }

  predicate OrderInv(w: World) {
    w.server.Some? ==> OrderOK(w.server.value)
  }

  /** A step that adds an uncounted failure has just added the failure. */
  lemma WorkOrder(w: World, s: Server, i: nat, work: WorkStep)
    requires w.server == Some(s) && WorkEnabled(s, i, work) && TailOK(s.workers[i])
    ensures var s' := ApplyWork(w, s, i, work).server.value;
            && TailOK(s'.workers[i])
            && One(OtherFailureDue(s'.workers[i])) - OtherFailures(s')
               <= One(OtherFailureDue(s.workers[i])) - OtherFailures(s)
  {
  }

  lemma WorkKeepsOrder(w: World, s: Server, i: nat, work: WorkStep)
    requires w.server == Some(s) && WorkEnabled(s, i, work) && OrderOK(s)
    ensures OrderOK(ApplyWork(w, s, i, work).server.value)
  {
    var s' := ApplyWork(w, s, i, work).server.value;
    WorkTouchesOne(w, s, i, work);
    WorkOrder(w, s, i, work);
    CountUpdate(s.workers, i, s'.workers[i], OtherFailureDue);
  }

  lemma BootOrder(s: Server)
    requires AllLoading(s.workers)
    ensures OrderOK(s)
  {
    CountNone(s.workers, OtherFailureDue);
  }

  lemma StepKeepsOrder(w: World, e: Event)
    requires OrderInv(w) && Enabled(w, e)
    ensures OrderInv(Apply(w, e))
  {
    match e
    case Submit(id, step) => SubmitKeepsPool(w, w.server.value, id, step);
    case Work(i, work) => WorkKeepsOrder(w, w.server.value, i, work);
    case Restart(config, run) => BootOrder(Apply(w, e).server.value);
    case _ =>
  }

  lemma {:induction false} RunKeepsOrder(from: World, events: seq<Event>, to: World)
    requires OrderInv(from) && Runs(from, events, to)
    ensures OrderInv(to)
    decreases |events|
  {
    if events != [] {
      StepKeepsOrder(from, events[0]);
      RunKeepsOrder(Apply(from, events[0]), events[1..], to);
    }
  }

  lemma ReachableOrder(w: World)
    requires Reachable(w)
    ensures OrderInv(w)
  {
    var events :| Runs(INITIAL, events, w);
    RunKeepsOrder(INITIAL, events, w);
  }

  /** Who owes a failure: those who owe the timeout too, those between the bumps, and the others. */
  lemma OwesFailure(worker: Worker)
    requires TailOK(worker)
    ensures One(Owes(CountFailed, worker))
            == One(Owes(CountTimedOut, worker)) + One(BetweenBumps(worker)) + One(OtherFailureDue(worker))
  {
  }

  lemma {:induction false} OwedFailures(workers: seq<Worker>)
    requires forall i :: 0 <= i < |workers| ==> TailOK(workers[i])
    ensures CountWorkers(workers, (worker: Worker) => Owes(CountFailed, worker))
            == CountWorkers(workers, (worker: Worker) => Owes(CountTimedOut, worker))
               + CountWorkers(workers, BetweenBumps) + CountWorkers(workers, OtherFailureDue)
  {
    if workers != [] {
      OwesFailure(workers[|workers| - 1]);
      OwedFailures(workers[..|workers| - 1]);
    }
  }

  /** Failures other than timeouts that `jobs_failed` already shows. */
  function OtherFailuresCounted(s: Server): int {
    OtherFailures(s) - CountWorkers(s.workers, OtherFailureDue)
  }

  /** In every reachable state the two counters differ by exactly this much. */
  lemma FailuresOverTimeouts(w: World, s: Server)
    requires Reachable(w) && w.server == Some(s)
    ensures OtherFailuresCounted(s) >= 0
    ensures s.metrics.jobsFailed - s.metrics.jobsTimedOut
            == OtherFailuresCounted(s) - CountWorkers(s.workers, BetweenBumps)
  {
    ReachablePool(w);
    ReachableOrder(w);
    MetricsBalance(s);
    OwedFailures(s.workers);
  }

  /**
   * At one instant `jobs_timed_out <= jobs_failed` holds exactly when no more workers stand between
   * their two bumps than other failures have been counted.
   */
  lemma TimeoutsWithinFailuresIff(w: World, s: Server)
    requires Reachable(w) && w.server == Some(s)
    ensures s.metrics.jobsTimedOut <= s.metrics.jobsFailed
            <==> CountWorkers(s.workers, BetweenBumps) <= OtherFailuresCounted(s)
    ensures s.metrics.jobsTimedOut <= s.metrics.jobsFailed
            <==> Owed(s, CountFailed) <= Owed(s, CountTimedOut) + s.tally.errored + s.tally.joinFailed
  {
    FailuresOverTimeouts(w, s);
    ReachableOrder(w);
    OwedFailures(s.workers);
  }

  /** In particular it holds whenever no worker stands between its two bumps. */
  lemma TimeoutsWithinFailures(w: World, s: Server)
    requires Reachable(w) && w.server == Some(s)
    requires forall i :: 0 <= i < |s.workers| ==> !BetweenBumps(s.workers[i])
    ensures s.metrics.jobsTimedOut <= s.metrics.jobsFailed
  {
    FailuresOverTimeouts(w, s);
    CountNone(s.workers, BetweenBumps);
  }

  // ----- as a snapshot reads them: one load after the other -----

  lemma WorkTimeoutsGrow(w: World, s: Server, i: nat, work: WorkStep)
    requires w.server == Some(s) && WorkEnabled(s, i, work)
    ensures s.metrics.jobsTimedOut <= ApplyWork(w, s, i, work).server.value.metrics.jobsTimedOut
  {
  }

  lemma StepTimeoutsGrow(w: World, e: Event)
    requires Enabled(w, e) && KeepsProcess(e) && w.server.Some?
    ensures Apply(w, e).server.Some?
    ensures w.server.value.metrics.jobsTimedOut <= Apply(w, e).server.value.metrics.jobsTimedOut
  {
    match e
    case Submit(id, step) => SubmitKeepsPool(w, w.server.value, id, step);
    case Work(i, work) => WorkTimeoutsGrow(w, w.server.value, i, work);
    case _ =>
  }

  /** The counter never goes back while the process lives. */
  lemma {:induction false} RunTimeoutsGrow(from: World, events: seq<Event>, to: World)
    requires Runs(from, events, to) && from.server.Some?
    requires forall e :: e in events ==> KeepsProcess(e)
    ensures to.server.Some? && from.server.value.metrics.jobsTimedOut <= to.server.value.metrics.jobsTimedOut
    decreases |events|
  {
    if events != [] {
      StepTimeoutsGrow(from, events[0]);
      RunTimeoutsGrow(Apply(from, events[0]), events[1..], to);
    }
  }

  /** Timeouts counted between two moments. */
  function TimeoutsSince(first: Server, second: Server): int {
    second.metrics.jobsTimedOut - first.metrics.jobsTimedOut
  }

  /**
   * A snapshot loads `jobs_failed` first and `jobs_timed_out` later.  It shows the
   * timeouts within the failures exactly when the workers between their bumps at the
   * first load, and the timeouts counted since, do not outnumber the other failures
   * counted by then.
   */
  lemma SnapshotWithinFailuresIff(first: World, events: seq<Event>, second: World, s1: Server, s2: Server)
    requires Reachable(first) && Runs(first, events, second)
    requires forall e :: e in events ==> KeepsProcess(e)
    requires first.server == Some(s1) && second.server == Some(s2)
    ensures TimeoutsSince(s1, s2) >= 0
    ensures s2.metrics.jobsTimedOut <= s1.metrics.jobsFailed
            <==> TimeoutsSince(s1, s2) + CountWorkers(s1.workers, BetweenBumps) <= OtherFailuresCounted(s1)
  {
    RunTimeoutsGrow(first, events, second);
    FailuresOverTimeouts(first, s1);
  }

  /** In particular when no timeout is counted between the loads and no worker stands between its bumps. */
  lemma QuietSnapshot(first: World, events: seq<Event>, second: World, s1: Server, s2: Server)
    requires Reachable(first) && Runs(first, events, second)
    requires forall e :: e in events ==> KeepsProcess(e)
    requires first.server == Some(s1) && second.server == Some(s2)
    requires TimeoutsSince(s1, s2) == 0
    requires forall i :: 0 <= i < |s1.workers| ==> !BetweenBumps(s1.workers[i])
    ensures s2.metrics.jobsTimedOut <= s1.metrics.jobsFailed
  {
    SnapshotWithinFailuresIff(first, events, second, s1, s2);
    FailuresOverTimeouts(first, s1);
    CountNone(s1.workers, BetweenBumps);
  }
}
