/** The worker pool: readiness counters, job metrics and session ownership, over every run. */
module PoolInvariants {
  import opened Records
  import opened ModelSessions
  import opened Protocol
  import opened PoolAccounting

  // ----- preservation -----

  /** The two gauges move with the worker that a step moves. */
  lemma WorkReady(w: World, s: Server, i: nat, work: WorkStep)
    requires w.server == Some(s) && WorkEnabled(s, i, work)
    requires InService(s.workers[i]) ==> s.ready > 0
    ensures var s' := ApplyWork(w, s, i, work).server.value;
            s'.ready == s.ready - One(InService(s.workers[i])) + One(InService(s'.workers[i]))
  {
  }

  lemma WorkFailed(w: World, s: Server, i: nat, work: WorkStep)
    requires w.server == Some(s) && WorkEnabled(s, i, work)
    ensures var s' := ApplyWork(w, s, i, work).server.value;
            s'.failed == s.failed - One(InitFailed(s.workers[i])) + One(InitFailed(s'.workers[i]))
  {
  }

  lemma WorkKeepsCounters(w: World, s: Server, i: nat, work: WorkStep)
    requires w.server == Some(s) && WorkEnabled(s, i, work) && CountersOK(s)
    ensures CountersOK(ApplyWork(w, s, i, work).server.value)
    ensures work.MarkStopped? ==> s.ready > 0
  {
    var s' := ApplyWork(w, s, i, work).server.value;
    WorkTouchesOne(w, s, i, work);
    if InService(s.workers[i]) {
      CountSome(s.workers, InService, i);
    }
    WorkReady(w, s, i, work);
    WorkFailed(w, s, i, work);
    CountUpdate(s.workers, i, s'.workers[i], InService);
    CountUpdate(s.workers, i, s'.workers[i], InitFailed);
  }

  lemma WorkTouchesOne(w: World, s: Server, i: nat, work: WorkStep)
    requires w.server == Some(s) && WorkEnabled(s, i, work)
    ensures var s' := ApplyWork(w, s, i, work).server.value;
            && |s'.workers| == |s.workers| && s'.config == s.config
            && s'.workers == s.workers[i := s'.workers[i]]
  {
  }

  /** What one worker's transition does to the counters it owes. */
  lemma OwedUpdate(s: Server, s': Server, i: nat, counter: Counter)
    requires i < |s.workers| == |s'.workers| && s'.workers == s.workers[i := s'.workers[i]]
    ensures Owed(s', counter) == Owed(s, counter) - One(Owes(counter, s.workers[i])) + One(Owes(counter, s'.workers[i]))
  {
    CountUpdate(s.workers, i, s'.workers[i], (worker: Worker) => Owes(counter, worker));
  }

  lemma PayOne(w: World, s: Server, i: nat, counter: Counter)
    requires w.server == Some(s) && WorkEnabled(s, i, CountOne)
    requires TodoOK(s.workers[i])
    ensures var s' := ApplyWork(w, s, i, CountOne).server.value;
            Recorded(s'.metrics, counter) + One(Owes(counter, s'.workers[i])) - Due(s'.tally, counter)
            == Recorded(s.metrics, counter) + One(Owes(counter, s.workers[i])) - Due(s.tally, counter)
  {
    var todo := s.workers[i].todo;
    assert todo == [todo[0]] + todo[1..];
    assert todo[0] !in todo[1..];
  }

  lemma OpeningPaysNothing(w: World, s: Server, i: nat, work: WorkStep, counter: Counter)
    requires w.server == Some(s) && WorkEnabled(s, i, work) && Opening(work)
    ensures var s' := ApplyWork(w, s, i, work).server.value;
            Recorded(s'.metrics, counter) + One(Owes(counter, s'.workers[i])) - Due(s'.tally, counter)
            == Recorded(s.metrics, counter) + One(Owes(counter, s.workers[i])) - Due(s.tally, counter)
  {
  }

  lemma ClosingPays(w: World, s: Server, i: nat, work: WorkStep, counter: Counter)
    requires w.server == Some(s) && WorkEnabled(s, i, work) && !Opening(work) && !work.CountOne?
    ensures var s' := ApplyWork(w, s, i, work).server.value;
            Recorded(s'.metrics, counter) + One(Owes(counter, s'.workers[i])) - Due(s'.tally, counter)
            == Recorded(s.metrics, counter) + One(Owes(counter, s.workers[i])) - Due(s.tally, counter)
  {
  }

  /** A worker's step pays exactly the counters it stops owing. */
  lemma WorkPays(w: World, s: Server, i: nat, work: WorkStep, counter: Counter)
    requires w.server == Some(s) && WorkEnabled(s, i, work)
    requires TodoOK(s.workers[i])
    ensures var s' := ApplyWork(w, s, i, work).server.value;
            Recorded(s'.metrics, counter) + One(Owes(counter, s'.workers[i])) - Due(s'.tally, counter)
            == Recorded(s.metrics, counter) + One(Owes(counter, s.workers[i])) - Due(s.tally, counter)
  {
    if work.CountOne? {
      PayOne(w, s, i, counter);
    } else if Opening(work) {
      OpeningPaysNothing(w, s, i, work, counter);
    } else {
      ClosingPays(w, s, i, work, counter);
    }
  }

  lemma WorkKeepsTodo(w: World, s: Server, i: nat, work: WorkStep)
    requires w.server == Some(s) && WorkEnabled(s, i, work)
    requires TodoOK(s.workers[i])
    ensures TodoOK(ApplyWork(w, s, i, work).server.value.workers[i])
  {
  }

  lemma WorkStartsOpening(w: World, s: Server, i: nat, work: WorkStep)
    requires w.server == Some(s) && WorkEnabled(s, i, work) && Opening(work)
    ensures var s' := ApplyWork(w, s, i, work).server.value;
            s'.metrics.jobsStarted - Total(s'.tally) - One(InFlight(s'.workers[i]))
            == s.metrics.jobsStarted - Total(s.tally) - One(InFlight(s.workers[i]))
  {
  }

  lemma WorkStartsClosing(w: World, s: Server, i: nat, work: WorkStep)
    requires w.server == Some(s) && WorkEnabled(s, i, work) && !Opening(work)
    ensures var s' := ApplyWork(w, s, i, work).server.value;
            s'.metrics.jobsStarted - Total(s'.tally) - One(InFlight(s'.workers[i]))
            == s.metrics.jobsStarted - Total(s.tally) - One(InFlight(s.workers[i]))
  {
  }

  lemma WorkStarts(w: World, s: Server, i: nat, work: WorkStep)
    requires w.server == Some(s) && WorkEnabled(s, i, work)
    ensures var s' := ApplyWork(w, s, i, work).server.value;
            s'.metrics.jobsStarted - Total(s'.tally) - One(InFlight(s'.workers[i]))
            == s.metrics.jobsStarted - Total(s.tally) - One(InFlight(s.workers[i]))
  {
    if Opening(work) {
      WorkStartsOpening(w, s, i, work);
    } else {
      WorkStartsClosing(w, s, i, work);
    }
  }

  lemma WorkKeepsMetrics(w: World, s: Server, i: nat, work: WorkStep)
    requires w.server == Some(s) && WorkEnabled(s, i, work) && MetricsOK(s)
    ensures MetricsOK(ApplyWork(w, s, i, work).server.value)
  {
    var s' := ApplyWork(w, s, i, work).server.value;
    WorkTouchesOne(w, s, i, work);
    WorkKeepsTodo(w, s, i, work);
    WorkStarts(w, s, i, work);
    CountUpdate(s.workers, i, s'.workers[i], InFlight);
    assert TodosOK(s') && StartsOK(s');
    forall counter
      ensures PaidOK(s', counter)
    {
      assert PaidOK(s, counter);
      WorkPays(w, s, i, work, counter);
      OwedUpdate(s, s', i, counter);
    }
  }

  /** Only a model load changes the load count. */
  lemma WorkLoads(w: World, s: Server, i: nat, work: WorkStep)
    requires w.server == Some(s) && WorkEnabled(s, i, work)
    ensures ApplyWork(w, s, i, work).server.value.loads == s.loads + (if work.LoadModel? then 1 else 0)
  {
  }

  lemma WorkKeepsWorkerSessions(w: World, s: Server, i: nat, work: WorkStep)
    requires w.server == Some(s) && WorkEnabled(s, i, work)
    requires WorkerSessionsOK(s.workers[i], s.loads)
    ensures WorkerSessionsOK(ApplyWork(w, s, i, work).server.value.workers[i],
                             ApplyWork(w, s, i, work).server.value.loads)
  {
    WorkLoads(w, s, i, work);
    if work.FinishLocked? {
      FinishKeepsWorkerSessions(w, s, i, work);
    } else if work.Retain? {
      RetainKeepsWorkerSessions(w, s, i, work);
    }
  }

  lemma FinishKeepsWorkerSessions(w: World, s: Server, i: nat, work: WorkStep)
    requires w.server == Some(s) && WorkEnabled(s, i, work) && work.FinishLocked?
    requires WorkerSessionsOK(s.workers[i], s.loads)
    ensures WorkerSessionsOK(ApplyWork(w, s, i, work).server.value.workers[i], s.loads)
  {
  }

  lemma RetainKeepsWorkerSessions(w: World, s: Server, i: nat, work: WorkStep)
    requires w.server == Some(s) && WorkEnabled(s, i, work) && work.Retain?
    requires WorkerSessionsOK(s.workers[i], s.loads)
    ensures WorkerSessionsOK(ApplyWork(w, s, i, work).server.value.workers[i], s.loads)
  {
  }

  /** A timeout abandons the sessions with the task that still uses them. */
  lemma TimeoutDetaches(w: World, s: Server, i: nat)
    requires w.server == Some(s) && WorkEnabled(s, i, TaskEnds(TimedOut))
    requires WorkerSessionsOK(s.workers[i], s.loads)
    ensures var s' := ApplyWork(w, s, i, TaskEnds(TimedOut)).server.value;
            && s'.detached == s.detached + [Reach(s.workers[i])] && WholeLoad(Reach(s.workers[i]), s.loads)
            && Reach(s'.workers[i]) == NO_SESSIONS
  {
  }

  predicate TimesOut(work: WorkStep) {
    work.TaskEnds? && work.ending.TimedOut?
  }

  lemma NothingDetached(w: World, s: Server, i: nat, work: WorkStep)
    requires w.server == Some(s) && WorkEnabled(s, i, work) && !TimesOut(work)
    ensures ApplyWork(w, s, i, work).server.value.detached == s.detached
  {
  }

  lemma OpeningMovesSessions(w: World, s: Server, i: nat, work: WorkStep)
    requires w.server == Some(s) && WorkEnabled(s, i, work) && Opening(work)
    requires WorkerSessionsOK(s.workers[i], s.loads)
    ensures var reached := Reach(ApplyWork(w, s, i, work).server.value.workers[i]);
            reached == NO_SESSIONS || reached == Reach(s.workers[i]) || reached == FreshSessions(s.loads)
  {
  }

  lemma ClosingMovesSessions(w: World, s: Server, i: nat, work: WorkStep)
    requires w.server == Some(s) && WorkEnabled(s, i, work) && !Opening(work) && !TimesOut(work)
    requires WorkerSessionsOK(s.workers[i], s.loads)
    ensures var reached := Reach(ApplyWork(w, s, i, work).server.value.workers[i]);
            reached == NO_SESSIONS || reached == Reach(s.workers[i]) || reached == FreshSessions(s.loads)
  {
  }

  /** Otherwise the sessions stay, are dropped, or come from a new load. */
  lemma SessionsStay(w: World, s: Server, i: nat, work: WorkStep)
    requires w.server == Some(s) && WorkEnabled(s, i, work) && !TimesOut(work)
    requires WorkerSessionsOK(s.workers[i], s.loads)
    ensures var reached := Reach(ApplyWork(w, s, i, work).server.value.workers[i]);
            reached == NO_SESSIONS || reached == Reach(s.workers[i]) || reached == FreshSessions(s.loads)
  {
    if Opening(work) {
      OpeningMovesSessions(w, s, i, work);
    } else {
      ClosingMovesSessions(w, s, i, work);
    }
  }

  lemma WorkMovesSessions(w: World, s: Server, i: nat, work: WorkStep)
    requires w.server == Some(s) && WorkEnabled(s, i, work)
    requires WorkerSessionsOK(s.workers[i], s.loads)
    ensures var s' := ApplyWork(w, s, i, work).server.value;
            if TimesOut(work) then
              && s'.detached == s.detached + [Reach(s.workers[i])] && WholeLoad(Reach(s.workers[i]), s.loads)
              && Reach(s'.workers[i]) == NO_SESSIONS
            else
              && s'.detached == s.detached
              && (|| Reach(s'.workers[i]) == NO_SESSIONS || Reach(s'.workers[i]) == Reach(s.workers[i])
                  || Reach(s'.workers[i]) == FreshSessions(s.loads))
  {
    if TimesOut(work) {
      TimeoutDetaches(w, s, i);
    } else {
      NothingDetached(w, s, i, work);
      SessionsStay(w, s, i, work);
    }
  }

  lemma WorkKeepsSessions(w: World, s: Server, i: nat, work: WorkStep)
    requires w.server == Some(s) && WorkEnabled(s, i, work) && SessionsOK(s)
    ensures SessionsOK(ApplyWork(w, s, i, work).server.value)
  {
    var s' := ApplyWork(w, s, i, work).server.value;
    WorkTouchesOne(w, s, i, work);
    WorkKeepsWorkerSessions(w, s, i, work);
    WorkLoads(w, s, i, work);
    WorkMovesSessions(w, s, i, work);
    forall j | 0 <= j < |s'.workers|
      ensures WorkerSessionsOK(s'.workers[j], s'.loads)
    {
      assert WorkerSessionsOK(s.workers[j], s.loads);
    }
    forall k | 0 <= k < |s'.detached|
      ensures WholeLoad(s'.detached[k], s'.loads)
    {
      assert k < |s.detached| ==> WholeLoad(s.detached[k], s.loads);
    }
    forall j, k | 0 <= j < k < |s'.workers|
      ensures Apart(Reach(s'.workers[j]), Reach(s'.workers[k]))
    {
      assert Apart(Reach(s.workers[j]), Reach(s.workers[k]));
      assert WorkerSessionsOK(s.workers[j], s.loads) && WorkerSessionsOK(s.workers[k], s.loads);
    }
    DetachedStayApart(s, s', i);
  }

  lemma DetachedStayApart(s: Server, s': Server, i: nat)
    requires SessionsOK(s) && i < |s.workers| == |s'.workers| && s'.workers == s.workers[i := s'.workers[i]]
    requires s'.detached == s.detached
             || (s'.detached == s.detached + [Reach(s.workers[i])] && Reach(s'.workers[i]) == NO_SESSIONS)
    requires Reach(s'.workers[i]) == NO_SESSIONS || Reach(s'.workers[i]) == Reach(s.workers[i])
             || (Reach(s'.workers[i]) == FreshSessions(s.loads) && s'.detached == s.detached)
    ensures forall k, m :: 0 <= k < m < |s'.detached| ==> Apart(s'.detached[k], s'.detached[m])
    ensures forall j, k :: 0 <= j < |s'.workers| && 0 <= k < |s'.detached| ==>
              Apart(s'.detached[k], Reach(s'.workers[j]))
  {
    forall k, m | 0 <= k < m < |s'.detached|
      ensures Apart(s'.detached[k], s'.detached[m])
    {
      if m < |s.detached| {
        assert Apart(s.detached[k], s.detached[m]);
      } else {
        assert Apart(s.detached[k], Reach(s.workers[i]));
      }
    }
    forall j, k | 0 <= j < |s'.workers| && 0 <= k < |s'.detached|
      ensures Apart(s'.detached[k], Reach(s'.workers[j]))
    {
      if k < |s.detached| {
        assert Apart(s.detached[k], Reach(s.workers[j]));
        assert WholeLoad(s.detached[k], s.loads);
      } else if j < i {
        assert Apart(Reach(s.workers[j]), Reach(s.workers[i]));
      } else if j > i {
        assert Apart(Reach(s.workers[i]), Reach(s.workers[j]));
      }
    }
  }

  lemma DetachedEndsKeepsSessions(s: Server, k: nat)
    requires SessionsOK(s) && k < |s.detached|
    ensures SessionsOK(s.(detached := s.detached[..k] + s.detached[k + 1..]))
  {
    var s' := s.(detached := s.detached[..k] + s.detached[k + 1..]);
    assert forall m :: 0 <= m < |s'.detached| ==> s'.detached[m] == s.detached[if m < k then m else m + 1];
    forall m, n | 0 <= m < n < |s'.detached|
      ensures Apart(s'.detached[m], s'.detached[n])
    {
      assert Apart(s.detached[if m < k then m else m + 1], s.detached[if n < k then n else n + 1]);
    }
    forall i, m | 0 <= i < |s'.workers| && 0 <= m < |s'.detached|
      ensures Apart(s'.detached[m], Reach(s'.workers[i]))
    {
      assert Apart(s.detached[if m < k then m else m + 1], Reach(s.workers[i]));
    }
  }

  lemma SubmitKeepsPool(w: World, s: Server, id: JobId, step: SubmitStep)
    requires w.server == Some(s) && SubmitEnabled(w, s, id, step)
    ensures var s' := ApplySubmit(w, s, id, step).server.value;
            && s'.config == s.config && s'.workers == s.workers && s'.loads == s.loads && s'.detached == s.detached
            && s'.ready == s.ready && s'.failed == s.failed && s'.metrics == s.metrics && s'.tally == s.tally
  {
  }

  lemma NothingOwed(s: Server, counter: Counter)
    requires forall i :: 0 <= i < |s.workers| ==> !s.workers[i].Recording?
    ensures Owed(s, counter) == 0
  {
    CountNone(s.workers, (worker: Worker) => Owes(counter, worker));
  }

  predicate AllLoading(workers: seq<Worker>) {
    forall i :: 0 <= i < |workers| ==> workers[i].Loading?
  }

  lemma BootCounts(s: Server)
    requires AllLoading(s.workers)
    ensures CountWorkers(s.workers, InService) == 0
    ensures CountWorkers(s.workers, InitFailed) == 0
    ensures CountWorkers(s.workers, InFlight) == 0
  {
    CountNone(s.workers, InService);
    CountNone(s.workers, InitFailed);
    CountNone(s.workers, InFlight);
  }

  lemma BootPays(s: Server, counter: Counter)
    requires AllLoading(s.workers)
    requires s.metrics == Metrics(0, 0, 0, 0, 0) && s.tally == Tally(0, 0, 0, 0)
    ensures PaidOK(s, counter)
  {
    NothingOwed(s, counter);
  }

  lemma BootStarts(s: Server)
    requires CountWorkers(s.workers, InFlight) == 0
    requires s.metrics.jobsStarted == 0 && Total(s.tally) == 0
    ensures StartsOK(s)
  {
  }

  lemma BootMetrics(s: Server)
    requires AllLoading(s.workers)
    requires s.metrics == Metrics(0, 0, 0, 0, 0) && s.tally == Tally(0, 0, 0, 0)
    ensures TodosOK(s) && forall counter :: PaidOK(s, counter)
  {
    forall counter
      ensures PaidOK(s, counter)
    {
      BootPays(s, counter);
    }
  }

  lemma BootSessions(s: Server)
    requires AllLoading(s.workers) && s.detached == []
    ensures SessionsOK(s)
  {
  }

  lemma BootServer(s: Server)
    requires AllLoading(s.workers) && |s.workers| == s.config.workers && s.detached == []
    requires s.ready == 0 && s.failed == 0 && s.metrics == Metrics(0, 0, 0, 0, 0) && s.tally == Tally(0, 0, 0, 0)
    ensures CountersOK(s) && MetricsOK(s) && SessionsOK(s)
  {
    BootCounts(s);
    BootStarts(s);
    BootMetrics(s);
    BootSessions(s);
  }

  lemma BootPool(config: Config, jobs: JobMap)
    ensures CountersOK(Boot(config, jobs)) && MetricsOK(Boot(config, jobs)) && SessionsOK(Boot(config, jobs))
  {
    BootServer(Boot(config, jobs));
  }

  lemma PoolSame(s: Server, s': Server)
    requires CountersOK(s) && MetricsOK(s)
    requires s'.config == s.config && s'.workers == s.workers
    requires s'.ready == s.ready && s'.failed == s.failed && s'.metrics == s.metrics && s'.tally == s.tally
    ensures CountersOK(s') && MetricsOK(s')
  {
    forall counter
      ensures PaidOK(s', counter)
    {
      assert PaidOK(s, counter);
    }
  }

  lemma StepKeepsPool(w: World, e: Event)
    requires PoolInv(w) && Enabled(w, e)
    ensures PoolInv(Apply(w, e))
  {
    match e
    case Submit(id, step) =>
      SubmitKeepsPool(w, w.server.value, id, step);
      PoolSame(w.server.value, Apply(w, e).server.value);
    case Work(i, work) =>
      WorkKeepsCounters(w, w.server.value, i, work);
      WorkKeepsMetrics(w, w.server.value, i, work);
      WorkKeepsSessions(w, w.server.value, i, work);
    case DetachedTaskEnds(k) =>
      DetachedEndsKeepsSessions(w.server.value, k);
      PoolSame(w.server.value, Apply(w, e).server.value);
    case DropSenders => PoolSame(w.server.value, Apply(w, e).server.value);
    case Restart(config, run) => BootPool(config, Apply(w, e).server.value.jobs);
    case _ =>
  }

  lemma {:induction false} RunKeepsPool(from: World, events: seq<Event>, to: World)
    requires PoolInv(from) && Runs(from, events, to)
    ensures PoolInv(to)
    decreases |events|
  {
    if events != [] {
      StepKeepsPool(from, events[0]);
      RunKeepsPool(Apply(from, events[0]), events[1..], to);
    }
  }

  lemma ReachablePool(w: World)
    requires Reachable(w)
    ensures PoolInv(w)
  {
    var events :| Runs(INITIAL, events, w);
    RunKeepsPool(INITIAL, events, w);
  }

  // ----- what follows -----

  /**
   * `ready` counts the loops between `mark_ready` and `mark_stopped`, `failed` those
   * that ended in a failed initialisation, and together they never exceed the pool.
   */
  lemma PoolCounters(w: World, s: Server)
    requires Reachable(w) && w.server == Some(s)
    ensures s.ready == CountWorkers(s.workers, InService)
    ensures s.failed == CountWorkers(s.workers, InitFailed)
    ensures s.ready + s.failed <= s.config.workers
  {
    ReachablePool(w);
    CountDisjoint(s.workers, InService, InitFailed);
  }

  /** The server says it is ready exactly while some loop is in service. */
  lemma ReadyIff(w: World, s: Server)
    requires Reachable(w) && w.server == Some(s)
    ensures s.ready > 0 <==> exists i :: 0 <= i < |s.workers| && InService(s.workers[i])
  {
    ReachablePool(w);
    if i :| 0 <= i < |s.workers| && InService(s.workers[i]) {
      CountSome(s.workers, InService, i);
    } else {
      CountNone(s.workers, InService);
    }
  }

  /** The `checked_sub` in `mark_stopped` never meets zero. */
  lemma StopNeverUnderflows(w: World, s: Server, i: nat)
    requires Reachable(w) && w.server == Some(s) && WorkEnabled(s, i, MarkStopped)
    ensures s.ready > 0
  {
    ReachablePool(w);
    WorkKeepsCounters(w, s, i, MarkStopped);
  }

  /** A worker waiting on the queue holds all five sessions, and so does every running inference. */
  lemma SessionsAvailable(w: World, s: Server, i: nat)
    requires Reachable(w) && w.server == Some(s) && i < |s.workers|
    ensures s.workers[i].Idle? ==> Complete(s.workers[i].own)
    ensures s.workers[i].Inferring? ==> Complete(s.workers[i].lent)
  {
    ReachablePool(w);
    assert WorkerSessionsOK(s.workers[i], s.loads);
  }

  lemma ApartHandles(a: Sessions, b: Sessions, loads: nat)
    requires a == NO_SESSIONS || WholeLoad(a, loads)
    requires b == NO_SESSIONS || WholeLoad(b, loads)
    requires Apart(a, b)
    ensures Handles(a) !! Handles(b)
  {
    assert forall h :: h in Handles(a) ==> LoadOf(a) == Some(h.load);
    assert forall h :: h in Handles(b) ==> LoadOf(b) == Some(h.load);
  }

  /** No two threads can touch the same session: not two workers, and not a worker and an abandoned task. */
  lemma SessionsExclusive(w: World, s: Server)
    requires Reachable(w) && w.server == Some(s)
    ensures forall i, j :: 0 <= i < j < |s.workers| ==>
              Handles(Reach(s.workers[i])) !! Handles(Reach(s.workers[j]))
    ensures forall i, k :: 0 <= i < |s.workers| && 0 <= k < |s.detached| ==>
              Handles(s.detached[k]) !! Handles(Reach(s.workers[i]))
    ensures forall k, m :: 0 <= k < m < |s.detached| ==> Handles(s.detached[k]) !! Handles(s.detached[m])
  {
    ReachablePool(w);
    forall i, j | 0 <= i < j < |s.workers|
      ensures Handles(Reach(s.workers[i])) !! Handles(Reach(s.workers[j]))
    {
      ApartHandles(Reach(s.workers[i]), Reach(s.workers[j]), s.loads);
    }
    forall i, k | 0 <= i < |s.workers| && 0 <= k < |s.detached|
      ensures Handles(s.detached[k]) !! Handles(Reach(s.workers[i]))
    {
      ApartHandles(s.detached[k], Reach(s.workers[i]), s.loads);
    }
    forall k, m | 0 <= k < m < |s.detached|
      ensures Handles(s.detached[k]) !! Handles(s.detached[m])
    {
      ApartHandles(s.detached[k], s.detached[m], s.loads);
    }
  }

  /** Every started job is counted once as succeeded or failed, is still in flight, or is about to be counted. */
  lemma MetricsConservation(w: World, s: Server)
    requires Reachable(w) && w.server == Some(s)
    ensures s.metrics.jobsStarted
            == s.metrics.jobsSucceeded + s.metrics.jobsFailed
               + CountWorkers(s.workers, InFlight) + Owed(s, CountSucceeded) + Owed(s, CountFailed)
    ensures s.metrics.jobsTimedOut <= s.metrics.jobsFailed + Owed(s, CountFailed)
  {
    ReachablePool(w);
    MetricsBalance(s);
  }

  /** The four counters, spelled out. */
  lemma MetricsBalance(s: Server)
    requires MetricsOK(s)
    ensures s.metrics.jobsSucceeded + Owed(s, CountSucceeded) == s.tally.succeeded
    ensures s.metrics.jobsFailed + Owed(s, CountFailed) == s.tally.errored + s.tally.timedOut + s.tally.joinFailed
    ensures s.metrics.jobsTimedOut + Owed(s, CountTimedOut) == s.tally.timedOut
    ensures s.metrics.workerRestarts + Owed(s, CountRestarts) == s.tally.timedOut + s.tally.joinFailed
  {
    assert PaidOK(s, CountSucceeded) && PaidOK(s, CountFailed);
    assert PaidOK(s, CountTimedOut) && PaidOK(s, CountRestarts);
  }

  /** While no worker is between an ending and its counters, the counters are exact. */
  lemma MetricsAtRest(w: World, s: Server)
    requires Reachable(w) && w.server == Some(s)
    requires forall i :: 0 <= i < |s.workers| ==> !s.workers[i].Recording?
    ensures s.metrics.jobsStarted
            == s.metrics.jobsSucceeded + s.metrics.jobsFailed + CountWorkers(s.workers, InFlight)
    ensures s.metrics.jobsTimedOut <= s.metrics.jobsFailed
    ensures s.metrics.workerRestarts == s.metrics.jobsTimedOut + s.tally.joinFailed
    ensures s.metrics.jobsSucceeded == s.tally.succeeded
  {
    ReachablePool(w);
    MetricsBalance(s);
    NothingOwed(s, CountSucceeded);
    NothingOwed(s, CountFailed);
    NothingOwed(s, CountTimedOut);
    NothingOwed(s, CountRestarts);
  }
}
