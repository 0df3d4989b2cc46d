/** A timeout or a failed join always leads to a model load before the next job. */
module Reloading {
  import opened Records
  import opened PoolInvariants
  import opened Protocol
  import opened ProtocolTheorems

  /** On the way to the next model load, or out of the pool. */
  predicate MustReload(worker: Worker) {
    match worker
    case Loading => true
    case Recording(_, _, ending, _) => Restarts(ending)
    case Persisting(_, _, _, restart) => restart
    case Notifying(_, _, restart) => restart
    case Stopping(restart) => restart
    case Ended(_) => true
    case _ => false
  }

  predicate MustReloadAt(w: World, i: nat) {
    w.server.Some? && i < |w.server.value.workers| && MustReload(w.server.value.workers[i])
  }

  /** An ending that costs the sessions puts its worker on that way. */
  lemma LostSessionsMustReload(w: World, i: nat, ending: Ending)
    requires Enabled(w, Work(i, TaskEnds(ending)))
    ensures MustReloadAt(Apply(w, Work(i, TaskEnds(ending))), i) <==> ending.TimedOut? || ending.JoinFailed?
  {
  }

  lemma OwnStep(w: World, s: Server, i: nat, work: WorkStep)
    requires w.server == Some(s) && WorkEnabled(s, i, work) && MustReload(s.workers[i])
    ensures !work.Receive?
    ensures !work.LoadModel? ==> MustReload(ApplyWork(w, s, i, work).server.value.workers[i])
  {
  }

  /** Nothing but its own model load takes a worker off the way, and meanwhile it receives no job. */
  lemma OnlyLoadingEndsIt(w: World, e: Event, i: nat)
    requires Enabled(w, e) && MustReloadAt(w, i) && KeepsProcess(e)
    ensures e != Work(i, Receive)
    ensures e != Work(i, LoadModel) ==> MustReloadAt(Apply(w, e), i)
  {
    match e
    case Submit(id, step) => SubmitKeepsPool(w, w.server.value, id, step);
    case Work(j, work) =>
      WorkTouchesOne(w, w.server.value, j, work);
      if i == j {
        OwnStep(w, w.server.value, i, work);
      }
    case _ =>
  }

  lemma {:induction false} StaysUnloaded(from: World, events: seq<Event>, to: World, i: nat)
    requires Runs(from, events, to) && MustReloadAt(from, i)
    requires forall e :: e in events ==> KeepsProcess(e) && e != Work(i, LoadModel)
    ensures MustReloadAt(to, i)
    decreases |events|
  {
    if events != [] {
      OnlyLoadingEndsIt(from, events[0], i);
      StaysUnloaded(Apply(from, events[0]), events[1..], to, i);
    }
  }

  /**
   * Between a timeout or a failed join and the next job its worker receives, the
   * worker has loaded its model again.
   */
  lemma ReloadBeforeReceive(from: World, ending: Ending, events: seq<Event>, to: World, i: nat)
    requires Enabled(from, Work(i, TaskEnds(ending))) && Restarts(ending)
    requires Runs(Apply(from, Work(i, TaskEnds(ending))), events, to)
    requires forall e :: e in events ==> KeepsProcess(e)
    requires Enabled(to, Work(i, Receive))
    ensures Work(i, LoadModel) in events
  {
    LostSessionsMustReload(from, i, ending);
    if Work(i, LoadModel) !in events {
      StaysUnloaded(Apply(from, Work(i, TaskEnds(ending))), events, to, i);
    }
  }
}
