/** What the worker pool's counters and sessions should be, as functions of where each worker is. */
module PoolAccounting {
  import opened Records
  import opened ModelSessions
  import opened Protocol

  // ----- counting workers -----

  function CountWorkers(workers: seq<Worker>, p: Worker -> bool): nat {
    if workers == [] then 0
    else CountWorkers(workers[..|workers| - 1], p) + (if p(workers[|workers| - 1]) then 1 else 0)
  }

  lemma {:induction false} CountUpdate(workers: seq<Worker>, i: nat, worker: Worker, p: Worker -> bool)
    requires i < |workers|
    ensures CountWorkers(workers[i := worker], p) == CountWorkers(workers, p) - One(p(workers[i])) + One(p(worker))
  {
    var n := |workers| - 1;
    if i < n {
      CountUpdate(workers[..n], i, worker, p);
      assert workers[i := worker][..n] == workers[..n][i := worker];
    } else {
      assert workers[i := worker][..n] == workers[..n];
    }
  }

  lemma {:induction false} CountNone(workers: seq<Worker>, p: Worker -> bool)
    requires forall i :: 0 <= i < |workers| ==> !p(workers[i])
    ensures CountWorkers(workers, p) == 0
  {
    if workers != [] {
      CountNone(workers[..|workers| - 1], p);
    }
  }

  lemma {:induction false} CountSome(workers: seq<Worker>, p: Worker -> bool, i: nat)
    requires i < |workers| && p(workers[i])
    ensures CountWorkers(workers, p) > 0
  {
    if i < |workers| - 1 {
      CountSome(workers[..|workers| - 1], p, i);
    }
  }

  lemma {:induction false} CountDisjoint(workers: seq<Worker>, p: Worker -> bool, q: Worker -> bool)
    requires forall worker :: !(p(worker) && q(worker))
    ensures CountWorkers(workers, p) + CountWorkers(workers, q) <= |workers|
  {
    if workers != [] {
      CountDisjoint(workers[..|workers| - 1], p, q);
    }
  }

  /** Between `mark_ready` and `mark_stopped`. */
  predicate InService(worker: Worker) {
    !worker.Loading? && !worker.Ended?
  }

  predicate InitFailed(worker: Worker) {
    worker.Ended? && worker.initFailed
  }

  /** Started and not yet ended. */
  predicate InFlight(worker: Worker) {
    worker.Started? || worker.Marked? || worker.Inferring?
  }

  /** The job has ended but this counter has not been bumped for it yet. */
  predicate Owes(counter: Counter, worker: Worker) {
    worker.Recording? && counter in worker.todo
  }

  function Owed(s: Server, counter: Counter): nat {
    CountWorkers(s.workers, (worker: Worker) => Owes(counter, worker))
  }

  predicate NoRepeat(todo: seq<Counter>) {
    forall i, j :: 0 <= i < j < |todo| ==> todo[i] != todo[j]
  }

  predicate TodoOK(worker: Worker) {
    worker.Recording? ==> NoRepeat(worker.todo)
  }

  function Total(t: Tally): nat {
    t.succeeded + t.errored + t.timedOut + t.joinFailed
  }

  function Recorded(m: Metrics, counter: Counter): nat {
    match counter
    case CountSucceeded => m.jobsSucceeded
    case CountFailed => m.jobsFailed
    case CountTimedOut => m.jobsTimedOut
    case CountRestarts => m.workerRestarts
  }

  /** What a counter must show once every ended job has been recorded. */
  function Due(t: Tally, counter: Counter): nat {
    match counter
    case CountSucceeded => t.succeeded
    case CountFailed => t.errored + t.timedOut + t.joinFailed
    case CountTimedOut => t.timedOut
    case CountRestarts => t.timedOut + t.joinFailed
  }

  predicate CountersOK(s: Server) {
    && s.ready == CountWorkers(s.workers, InService)
    && s.failed == CountWorkers(s.workers, InitFailed)
    && |s.workers| == s.config.workers
  }

  predicate TodosOK(s: Server) {
    forall i :: 0 <= i < |s.workers| ==> TodoOK(s.workers[i])
  }

  predicate StartsOK(s: Server) {
    s.metrics.jobsStarted == Total(s.tally) + CountWorkers(s.workers, InFlight)
  }

  predicate PaidOK(s: Server, counter: Counter) {
    Recorded(s.metrics, counter) + Owed(s, counter) == Due(s.tally, counter)
  }

  ghost predicate MetricsOK(s: Server) {
    TodosOK(s) && StartsOK(s) && forall counter :: PaidOK(s, counter)
  }

  // ----- sessions -----

  /** The sessions a worker, or the blocking thread it waits for, can reach. */
  function Reach(worker: Worker): Sessions {
    match worker
    case Loading => NO_SESSIONS
    case Idle(own) => own
    case Received(_, own) => own
    case Started(_, own) => own
    case Marked(_, own) => own
    case Inferring(_, _, lent) => lent
    case Recording(_, own, _, _) => own
    case Persisting(_, own, _, _) => own
    case Notifying(_, own, _) => own
    case Stopping(_) => NO_SESSIONS
    case Ended(_) => NO_SESSIONS
  }

  predicate MustOwn(worker: Worker) {
    match worker
    case Loading => false
    case Recording(_, _, ending, _) => ending.Returned?
    case Persisting(_, _, _, restart) => !restart
    case Notifying(_, _, restart) => !restart
    case Stopping(_) => false
    case Ended(_) => false
    case _ => true
  }

  /** All five sessions of one model load, or none at all. */
  predicate WholeLoad(sessions: Sessions, loads: nat) {
    && sessions.visionEncoder.Some? && sessions.visionEncoder.value.load < loads
    && sessions == FreshSessions(sessions.visionEncoder.value.load)
  }

  function LoadOf(sessions: Sessions): Option<nat> {
    if sessions.visionEncoder.Some? then Some(sessions.visionEncoder.value.load) else None
  }

  predicate Apart(a: Sessions, b: Sessions) {
    LoadOf(a).Some? ==> LoadOf(a) != LoadOf(b)
  }

  predicate WorkerSessionsOK(worker: Worker, loads: nat) {
    && (Reach(worker) == NO_SESSIONS || WholeLoad(Reach(worker), loads))
    && (MustOwn(worker) ==> WholeLoad(Reach(worker), loads))
    && (worker.Inferring? ==> worker.own == NO_SESSIONS)
  }

  predicate SessionsOK(s: Server) {
    && (forall i :: 0 <= i < |s.workers| ==> WorkerSessionsOK(s.workers[i], s.loads))
    && (forall k :: 0 <= k < |s.detached| ==> WholeLoad(s.detached[k], s.loads))
    && (forall i, j :: 0 <= i < j < |s.workers| ==> Apart(Reach(s.workers[i]), Reach(s.workers[j])))
    && (forall k, m :: 0 <= k < m < |s.detached| ==> Apart(s.detached[k], s.detached[m]))
    && (forall i, k :: 0 <= i < |s.workers| && 0 <= k < |s.detached| ==> Apart(s.detached[k], Reach(s.workers[i])))
  }

  ghost predicate PoolInv(w: World) {
    w.server.Some? ==>
      CountersOK(w.server.value) && MetricsOK(w.server.value) && SessionsOK(w.server.value)
  }
}
