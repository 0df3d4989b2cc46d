/** Runs of the protocol under construction, one step at a time. */
module Traces {
  import opened Protocol
  import opened ProtocolTheorems

  /** The events so far, and the world they lead to. */
  datatype Trace = Trace(start: World, events: seq<Event>, now: World)

  ghost predicate ValidTrace(t: Trace) {
    Runs(t.start, t.events, t.now)
  }

  lemma Take(t: Trace, e: Event) returns (after: Trace)
    requires ValidTrace(t) && Enabled(t.now, e)
    ensures after == Trace(t.start, t.events + [e], Apply(t.now, e)) && ValidTrace(after)
  {
    RunsSnoc(t.start, t.events, t.now, e);
    after := Trace(t.start, t.events + [e], Apply(t.now, e));
  }
}
