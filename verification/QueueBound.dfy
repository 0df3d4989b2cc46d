/** The bounded channel never holds more than its capacity. */
module QueueBound {
  import opened Records
  import opened Protocol

  predicate WithinCapacity(w: World) {
    w.server.Some? ==> |w.server.value.queue| <= w.server.value.config.queueSize
  }

  lemma SubmitKeepsBound(w: World, s: Server, id: JobId, step: SubmitStep)
    requires w.server == Some(s) && SubmitEnabled(w, s, id, step) && WithinCapacity(w)
    ensures WithinCapacity(ApplySubmit(w, s, id, step))
  {
  }

  lemma WorkKeepsBound(w: World, s: Server, i: nat, work: WorkStep)
    requires w.server == Some(s) && WorkEnabled(s, i, work) && WithinCapacity(w)
    ensures WithinCapacity(ApplyWork(w, s, i, work))
  {
  }

  lemma StepKeepsBound(w: World, e: Event)
    requires Enabled(w, e) && WithinCapacity(w)
    ensures WithinCapacity(Apply(w, e))
  {
    match e
    case Submit(id, step) => SubmitKeepsBound(w, w.server.value, id, step);
    case Work(i, work) => WorkKeepsBound(w, w.server.value, i, work);
    case _ =>
  }

  lemma {:induction false} RunKeepsBound(from: World, events: seq<Event>, to: World)
    requires WithinCapacity(from) && Runs(from, events, to)
    ensures WithinCapacity(to)
    decreases |events|
  {
    if events != [] {
      StepKeepsBound(from, events[0]);
      RunKeepsBound(Apply(from, events[0]), events[1..], to);
    }
  }

  /** However many handlers found room at once, only as many as there is room for get in. */
  lemma QueueWithinCapacity(w: World, s: Server)
    requires Reachable(w) && w.server == Some(s)
    ensures |s.queue| <= s.config.queueSize
  {
    var events :| Runs(INITIAL, events, w);
    RunKeepsBound(INITIAL, events, w);
  }
}
