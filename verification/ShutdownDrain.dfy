/** What is left when the worker loops have run out of work after the senders are gone. */
module ShutdownDrain {
  import opened Records
  import opened Protocol
  import opened ProtocolTheorems

  /** Left its loop because the queue was closed and empty. */
  predicate RanOut(worker: Worker) {
    (worker.Stopping? && !worker.restart) || (worker.Ended? && !worker.initFailed)
  }

  predicate DrainOK(s: Server) {
    && (s.sendersGone ==> NoHandlerRunning(s))
    && (forall i :: 0 <= i < |s.workers| && RanOut(s.workers[i]) ==> s.sendersGone && s.queue == [])
  }

  predicate DrainInv(w: World) {
    w.server.Some? ==> DrainOK(w.server.value)
  }

  lemma SubmitKeepsDrain(w: World, s: Server, id: JobId, step: SubmitStep)
    requires w.server == Some(s) && SubmitEnabled(w, s, id, step) && DrainOK(s)
    ensures DrainOK(ApplySubmit(w, s, id, step).server.value)
  {
  }

  lemma WorkKeepsDrain(w: World, s: Server, i: nat, work: WorkStep)
    requires w.server == Some(s) && WorkEnabled(s, i, work) && DrainOK(s)
    ensures DrainOK(ApplyWork(w, s, i, work).server.value)
  {
  }

  /** Once the senders are gone the queue only shrinks, and a loop that ran out left it empty. */
  lemma StepKeepsDrain(w: World, e: Event)
    requires Enabled(w, e) && DrainInv(w)
    ensures DrainInv(Apply(w, e))
  {
    match e
    case Submit(id, step) => SubmitKeepsDrain(w, w.server.value, id, step);
    case Work(i, work) => WorkKeepsDrain(w, w.server.value, i, work);
    case _ =>
  }

  lemma {:induction false} RunKeepsDrain(from: World, events: seq<Event>, to: World)
    requires DrainInv(from) && Runs(from, events, to)
    ensures DrainInv(to)
    decreases |events|
  {
    if events != [] {
      StepKeepsDrain(from, events[0]);
      RunKeepsDrain(Apply(from, events[0]), events[1..], to);
    }
  }

  lemma ReachableDrain(w: World)
    requires Reachable(w)
    ensures DrainInv(w)
  {
    var events :| Runs(INITIAL, events, w);
    RunKeepsDrain(INITIAL, events, w);
  }

  lemma EndedHoldNothing(s: Server, id: JobId)
    requires forall i :: 0 <= i < |s.workers| ==> s.workers[i].Ended?
    ensures Holders(s, id) == {}
  {
  }

  /**
   * If every loop has ended and one of them ran out of work, every job this process
   * accepted has been completed.  Nothing makes the process wait for that.
   */
  lemma DrainedMeansCompleted(w: World, s: Server, last: nat, id: JobId)
    requires Reachable(w) && w.server == Some(s)
    requires forall i :: 0 <= i < |s.workers| ==> s.workers[i].Ended?
    requires last < |s.workers| && RanOut(s.workers[last])
    requires AcceptedHere(w, s, id)
    ensures HasTicket(s, id, Completed)
  {
    JobConservation(w, s, id);
    EndedHoldNothing(s, id);
    ReachableDrain(w);
    assert s.queue == [];
  }
}
